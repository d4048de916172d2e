/** Properties of the request handler that relate several dispatches, or that
    pin down behaviour at the edges of the path and expiry rules. */
module RequestHandlerProperties {
  import opened Optional
  import opened ServerModel
  import opened RequestHandler

  /** One inbound request and the clock reading when it is handled. */
  datatype Arrival = Arrival(request: Request, now: int)

  /** The store the `i`-th dispatch of a run starts from. */
  function StoreBefore(store: Store, ds: seq<Dispatch>, i: nat): Store
    requires i <= |ds|
  {
    if i == 0 then store else ds[i - 1].store
  }

  /** Successive dispatches sharing one handler, each against the store the previous
      one left behind. The store only ever loses sessions. */
  function Serve(c: Config, env: Env, store: Store, arrivals: seq<Arrival>): (ds: seq<Dispatch>)
    ensures |ds| == |arrivals|
    ensures forall i :: 0 <= i < |ds| ==> ds[i].store.Keys <= store.Keys
    ensures forall i :: 0 < i < |ds| ==> ds[i].store.Keys <= ds[i - 1].store.Keys
    decreases |arrivals|
  {
    if arrivals == [] then []
    else
      var d := Handle(c, env, store, arrivals[0].request, arrivals[0].now);
      [d] + Serve(c, env, d.store, arrivals[1..])
  }

  /** Each dispatch of a run is `Handle` applied to its arrival and to the store
      the dispatch before it left. */
  lemma {:induction false} ServeSteps(c: Config, env: Env, store: Store, arrivals: seq<Arrival>, i: nat)
    requires i < |arrivals|
    ensures var ds := Serve(c, env, store, arrivals);
      ds[i] == Handle(c, env, StoreBefore(store, ds, i), arrivals[i].request, arrivals[i].now)
    decreases i
  {
    if i > 0 {
      var d := Handle(c, env, store, arrivals[0].request, arrivals[0].now);
      ServeSteps(c, env, d.store, arrivals[1..], i - 1);
    }
  }

  /** Later in a run the store holds no session id an earlier store lacked. */
  lemma {:induction false} StoresShrink(c: Config, env: Env, store: Store, arrivals: seq<Arrival>, i: nat, j: nat)
    requires i <= j < |arrivals|
    ensures Serve(c, env, store, arrivals)[j].store.Keys <= Serve(c, env, store, arrivals)[i].store.Keys
    decreases j - i
  {
    if i < j {
      StoresShrink(c, env, store, arrivals, i, j - 1);
    }
  }

  /** A session evicted during a run is gone for the rest of it, so no later
      request can evict it a second time. */
  lemma EvictedAtMostOnce(c: Config, env: Env, store: Store, arrivals: seq<Arrival>, id: string, i: nat, j: nat)
    requires i < j < |arrivals|
    requires id in StoreBefore(store, Serve(c, env, store, arrivals), i)
    requires id !in Serve(c, env, store, arrivals)[i].store
    ensures id !in StoreBefore(store, Serve(c, env, store, arrivals), j)
  {
    StoresShrink(c, env, store, arrivals, i, j - 1);
  }

  /** A static request is answered the same way whatever the store holds and
      whatever the time. */
  lemma StaticIgnoresStoreAndClock(c: Config, env: Env, req: Request, s1: Store, s2: Store, t1: int, t2: int)
    requires ServesStatic(c, env, req)
    ensures Handle(c, env, s1, req, t1).response == Handle(c, env, s2, req, t2).response
    ensures Handle(c, env, s1, req, t1).store == s1
  {
  }

  /** A skipped resolution forwards the same way whatever the store holds and
      whatever the time, and leaves the store as it was. */
  lemma SkipIgnoresStoreAndClock(c: Config, env: Env, req: Request, s1: Store, s2: Store, t1: int, t2: int)
    requires SkipsResolution(c, env, req)
    ensures Handle(c, env, s1, req, t1).response == Handle(c, env, s2, req, t2).response
    ensures Handle(c, env, s1, req, t1).store == s1
  {
  }

  /** Once a request has evicted the cookie's session, the next request presenting
      the same cookie finds nothing in the store and evicts nothing. */
  lemma EvictionIsFinal(c: Config, env: Env, store: Store, r1: Request, t1: int, r2: Request, t2: int)
    requires Resolves(c, env, r1)
    requires Evicts(c.sessionExpirySeconds, store, ContextOf(c, env, r1).sessionCookieValue, t1)
    requires ContextOf(c, env, r2).sessionCookieValue == ContextOf(c, env, r1).sessionCookieValue
    ensures var d1 := Handle(c, env, store, r1, t1);
      && ContextOf(c, env, r1).sessionCookieValue.value !in d1.store
      && Handle(c, env, d1.store, r2, t2).store == d1.store
  {
  }

  /** Sliding window: after a touch at `now`, the session stays live exactly up to
      `now + expirySeconds`, because the touch moved `updated` to `now`. */
  lemma SlidingWindow(expirySeconds: int, s: Session, now: int, later: int)
    requires expirySeconds != -1
    requires CheckExpiry(expirySeconds, s, now).Live?
    ensures CheckExpiry(expirySeconds, CheckExpiry(expirySeconds, s, now).session, later).Live?
      <==> later <= now + expirySeconds
  {
  }

  /** The touch records in `expires` the deadline computed from the previous `updated`,
      so that field falls short of the deadline the next check applies whenever the
      session was last touched before `now`. */
  lemma ExpiresFieldLags(expirySeconds: int, s: Session, now: int)
    requires expirySeconds != -1
    requires CheckExpiry(expirySeconds, s, now).Live?
    ensures var t := CheckExpiry(expirySeconds, s, now).session;
      t.updated == now && t.expires == s.updated + expirySeconds
      && (t.expires < t.updated + expirySeconds <==> s.updated < now)
  {
  }

  /** Inferring the resource type a second time changes nothing. */
  lemma FillResourceTypeIdempotent(q: Request, fromFileExtension: string -> Option<ResourceType>)
    ensures FillResourceType(FillResourceType(q, fromFileExtension), fromFileExtension)
      == FillResourceType(q, fromFileExtension)
  {
  }

  /** The prefix test is on characters, not path segments: whatever follows the
      prefix is kept, even when it does not start a new segment (`/apple` under
      `/app` becomes `le`). */
  lemma StripIsCharacterWise(p: string, rest: string)
    ensures StripContextPath(Some(p), p + rest) == rest
  {
  }

  /** The prefix is removed once only, so a path can still start with it afterwards. */
  lemma StripHappensOnce(p: string, rest: string)
    ensures StripContextPath(Some(p), p + p + rest) == p + rest
    ensures p <= StripContextPath(Some(p), p + p + rest)
  {
  }

  /** Mounting under a stripped context path is transparent: a path below the prefix
      normalises as the bare path would with stripping switched off. */
  lemma NormaliseUnderPrefix(c: Config, path: string)
    requires c.stripContextPathFromRequest && c.hostContextPath.Some?
    ensures NormalisePath(c, c.hostContextPath.value + path)
      == NormalisePath(c.(stripContextPathFromRequest := false), path)
  {
  }

  /** Where the sign-in redirect lands once the next request is normalised: the host
      context path is stripped again, leaving the sign-in page minus its first
      character, which is never the sign-in page itself. */
  lemma SignInTargetNormalises(c: Config)
    requires c.stripContextPathFromRequest && c.hostContextPath.Some?
    requires c.signinPagePath != []
    ensures SignInPath(c).Some?
    ensures NormalisePath(c, SignInPath(c).value)
      == if c.signinPagePath[1..] == Slash then c.homePagePath else c.signinPagePath[1..]
    ensures NormalisePath(c, SignInPath(c).value) == c.signinPagePath ==> c.homePagePath == c.signinPagePath
  {
  }

  /** With stripping on and no global or auto-created session, a request that follows
      the sign-in redirect without a valid session is redirected to the same place
      again, unless the stripped sign-in page happens to be the home page or the
      sign-out page. */
  lemma SignInRedirectLoops(c: Config, env: Env, store: Store, r1: Request, t1: int, r2: Request, t2: int)
    requires c.stripContextPathFromRequest && c.hostContextPath.Some?
    requires !c.useGlobalSession && !c.autoCreateSession
    requires |c.signinPagePath| >= 2 && c.signinPagePath[1..] != Slash
    requires c.signoutPagePath != c.signinPagePath[1..]
    requires Handle(c, env, store, r1, t1).response.Redirect?
    requires r2.path == Handle(c, env, store, r1, t1).response.target
    requires Resolves(c, env, r2)
    requires LookUp(c.sessionExpirySeconds, env.storeSharesSessions, Handle(c, env, store, r1, t1).store,
                    ContextOf(c, env, r2).sessionCookieValue, t2).found.None?
    ensures var d1 := Handle(c, env, store, r1, t1);
      var d2 := Handle(c, env, d1.store, r2, t2);
      d2.response.Redirect? && d2.response.target == d1.response.target
  {
  }

  /** Two requests presenting the cookie of a stored session, the first finding it live.
      In a store that shares its session objects the first touch moves the deadline of
      the second check to the first request's time plus the expiry (the window slides);
      in a store that hands out copies the handler's own get and delete leave the
      deadline at the stored `updated` plus the expiry. */
  lemma RunSlidingWindow(c: Config, env: Env, store: Store, arrivals: seq<Arrival>, id: string)
    requires |arrivals| == 2
    requires c.sessionExpirySeconds != -1
    requires Resolves(c, env, arrivals[0].request) && Resolves(c, env, arrivals[1].request)
    requires ContextOf(c, env, arrivals[0].request).sessionCookieValue == Some(id)
    requires ContextOf(c, env, arrivals[1].request).sessionCookieValue == Some(id)
    requires id in store && arrivals[0].now <= store[id].updated + c.sessionExpirySeconds
    ensures var ds := Serve(c, env, store, arrivals);
      var deadline := if env.storeSharesSessions then arrivals[0].now + c.sessionExpirySeconds
                      else store[id].updated + c.sessionExpirySeconds;
      && id in ds[0].store
      && (Evicts(c.sessionExpirySeconds, ds[0].store, Some(id), arrivals[1].now) <==> arrivals[1].now > deadline)
      && (arrivals[1].now > deadline ==> id !in ds[1].store)
      && (arrivals[1].now <= deadline ==> ds[1].session.Some? && ds[1].session.value.updated == arrivals[1].now)
  {
  }

  /** With a host context path of `/` switched on for stripping, the root request is
      stripped to the empty path and never reaches the home page. */
  lemma RootUnderSlashPrefix(c: Config)
    requires c.stripContextPathFromRequest && c.hostContextPath == Some("/")
    requires c.homePagePath != ""
    ensures NormalisePath(c, "/") == ""
    ensures NormalisePath(c, "/") != c.homePagePath
  {
  }

  /** With auto-create on and global-session mode off, a context whose `init()` makes
      no session is forwarded downstream without one, and that absent session is what
      the context is given. */
  lemma AutoCreateCanForwardNoSession(c: Config, env: Env, store: Store, req: Request, now: int)
    requires Resolves(c, env, req)
    requires !c.useGlobalSession && c.autoCreateSession
    requires LookUp(c.sessionExpirySeconds, env.storeSharesSessions, store,
                    ContextOf(c, env, req).sessionCookieValue, now).found.None?
    requires ContextOf(c, env, req).sessionAfterInit.None?
    ensures Handle(c, env, store, req, now).response == Forward(Prepared(c, env, req), None)
    ensures Handle(c, env, store, req, now).sessionAssigned
    ensures Handle(c, env, store, req, now).session.None?
  {
  }
}
