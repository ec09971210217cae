/**
 * internal/app/api/extensions/apiver.go: routing by the Accept-version
 * header on top of a gin engine.
 *
 * Registering a route under a version installs two routes, each only when
 * isRouteExist does not find its path: a forwarder on the plain path,
 * which prefixes the request path with "/" and the header's value and
 * dispatches the request again, and the real handlers on version + path.
 * gin stores each path joined onto "/" and panics on a duplicate, while
 * isRouteExist compares the path as given: the two agree only on
 * absolute paths.
 */
module ApiVersion {
  import opened Wrappers
  import opened Http

  const AcceptVersionHeader := "Accept-version"
  const EmptyVersionMessage := "Accept-version header is empty"
  const DuplicateVersionMessage := "cannot initialize same version multiple times"

  /**
   * One registration step of handle: isRouteExist compares `checked` with
   * the stored paths as they are, and only when it finds none is `r`
   * added (under its joined path). A panic earlier in handle stops it.
   */
  function HandleStep(s: Routing, checked: string, r: Route): (res: Routing)
    ensures s.panicked.Some? ==> res == s
    ensures s.panicked.None? && RouteExists(s.routes, r.httpMethod, checked) ==> res == s
    ensures s.panicked.None? && !RouteExists(s.routes, r.httpMethod, checked) ==> res == AddRouteTo(s.routes, r)
  {
    if s.panicked.Some? || RouteExists(s.routes, r.httpMethod, checked) then s
    else AddRouteTo(s.routes, r)
  }

  /**
   * The route table after handle(m, p, hs) on a router carrying `version`:
   * the forwarder on p, then the handlers on version + p, each unless
   * isRouteExist finds its path; gin stores both joined onto "/".
   */
  function Registered(routes: seq<Route>, version: string, m: string, p: string, hs: seq<Handler>): Routing
  {
    var forwarded := HandleStep(Routing(routes, None), p, Route(m, JoinPaths("/", p), [Forwarder]));
    HandleStep(forwarded, version + p, Route(m, JoinPaths("/", version + p), hs))
  }

  /** handle keeps the engine's table valid, whether or not it panics. */
  lemma RegisteredKeepsValid(routes: seq<Route>, version: string, m: string, p: string, hs: seq<Handler>)
    requires ValidRoutes(routes)
    ensures ValidRoutes(Registered(routes, version, m, p, hs).routes)
  {
    AddRouteKeepsValid(routes, Route(m, JoinPaths("/", p), [Forwarder]));
    var forwarded := HandleStep(Routing(routes, None), p, Route(m, JoinPaths("/", p), [Forwarder]));
    AddRouteKeepsValid(forwarded.routes, Route(m, JoinPaths("/", version + p), hs));
  }

  /** A path isRouteExist finds in a valid table is absolute, so joining it onto "/" finds it too. */
  lemma FoundIsStored(routes: seq<Route>, m: string, p: string)
    requires AllAbsolute(routes) && RouteExists(routes, m, p)
    ensures IsAbsolute(p) && JoinPaths("/", p) == p
  {
    RootJoinFixesAbsolute(p);
  }

  /**
   * After a handle(m, p, hs) that did not panic, both the forwarder's path
   * and the versioned path are routed for m, joined onto "/".
   */
  lemma RegisteredRoutesBoth(routes: seq<Route>, version: string, m: string, p: string, hs: seq<Handler>)
    requires AllAbsolute(routes)
    requires Registered(routes, version, m, p, hs).panicked.None?
    ensures RouteExists(Registered(routes, version, m, p, hs).routes, m, JoinPaths("/", p))
    ensures RouteExists(Registered(routes, version, m, p, hs).routes, m, JoinPaths("/", version + p))
  {
    var fwd := Route(m, JoinPaths("/", p), [Forwarder]);
    var forwarded := HandleStep(Routing(routes, None), p, fwd);
    var ver := Route(m, JoinPaths("/", version + p), hs);
    var result := HandleStep(forwarded, version + p, ver);
    if RouteExists(routes, m, p) {
      FoundIsStored(routes, m, p);
    } else {
      assert forwarded.routes[|routes|] == fwd;
    }
    assert RouteExists(forwarded.routes, m, JoinPaths("/", p));
    assert AllAbsolute(forwarded.routes);
    if RouteExists(forwarded.routes, m, version + p) {
      FoundIsStored(forwarded.routes, m, version + p);
    } else {
      assert result.routes == forwarded.routes + [ver];
      assert result.routes[|forwarded.routes|] == ver;
      var i :| 0 <= i < |forwarded.routes| && forwarded.routes[i].httpMethod == m
                && forwarded.routes[i].path == JoinPaths("/", p);
      assert result.routes[i] == forwarded.routes[i];
    }
  }

  /**
   * Repeating a handle(m, p, hs) that succeeded adds nothing exactly when p
   * and version + p are absolute; otherwise isRouteExist misses the joined
   * path gin stored, and the second registration panics on the duplicate.
   * Stated for clean p and version + p, whose joins onto "/" gin stores
   * unchanged (RootJoinKeepsClean).
   */
  lemma RegisteredIdempotent(routes: seq<Route>, version: string, m: string, p: string, hs: seq<Handler>)
    requires AllAbsolute(routes)
    requires IsClean(p) && IsClean(version + p)
    requires Registered(routes, version, m, p, hs).panicked.None?
    ensures var once := Registered(routes, version, m, p, hs);
            var twice := Registered(once.routes, version, m, p, hs);
            && (twice.panicked.None? <==> IsAbsolute(p) && IsAbsolute(version + p))
            && (twice.panicked.None? ==> twice.routes == once.routes)
  {
    var once := Registered(routes, version, m, p, hs);
    RegisteredRoutesBoth(routes, version, m, p, hs);
    RegisteredKeepsAbsolute(routes, version, m, p, hs);
    RootJoinFixesAbsolute(p);
    RootJoinFixesAbsolute(version + p);
    if !IsAbsolute(p) {
      assert !RouteExists(once.routes, m, p);
    } else if !IsAbsolute(version + p) {
      assert !RouteExists(once.routes, m, version + p);
    }
  }

  /** handle only ever stores absolute paths. */
  lemma RegisteredKeepsAbsolute(routes: seq<Route>, version: string, m: string, p: string, hs: seq<Handler>)
    requires AllAbsolute(routes)
    ensures AllAbsolute(Registered(routes, version, m, p, hs).routes)
  {
    var forwarded := HandleStep(Routing(routes, None), p, Route(m, JoinPaths("/", p), [Forwarder]));
    assert AllAbsolute(forwarded.routes);
  }

  /**
   * A second version registering the same absolute path reuses the
   * forwarder already there: only its own versioned route is attempted.
   * Stated for clean paths, whose joins onto "/" gin stores unchanged.
   */
  lemma SecondVersionReusesForwarder(routes: seq<Route>, v1: string, v2: string, m: string, p: string,
                                     hs1: seq<Handler>, hs2: seq<Handler>)
    requires AllAbsolute(routes) && IsAbsolute(p)
    requires IsClean(p) && IsClean(v1 + p) && IsClean(v2 + p)
    requires Registered(routes, v1, m, p, hs1).panicked.None?
    ensures var first := Registered(routes, v1, m, p, hs1);
            Registered(first.routes, v2, m, p, hs2)
              == HandleStep(Routing(first.routes, None), v2 + p, Route(m, JoinPaths("/", v2 + p), hs2))
  {
    RegisteredRoutesBoth(routes, v1, m, p, hs1);
    RootJoinFixesAbsolute(p);
  }

  /**
   * The default router's version is "": version + p is p. For an absolute
   * p the forwarder has just taken that path, so the handlers given are
   * never installed; for any other p the forwarder went in under "/" + p,
   * which isRouteExist does not find, and the second registration panics.
   * Stated for a clean p, whose join onto "/" gin stores unchanged
   * (RootJoinKeepsClean).
   */
  lemma DefaultInstallsOnlyForwarder(routes: seq<Route>, m: string, p: string, hs: seq<Handler>)
    requires AllAbsolute(routes) && IsClean(p)
    ensures var forwarded := HandleStep(Routing(routes, None), p, Route(m, JoinPaths("/", p), [Forwarder]));
            && (IsAbsolute(p) ==> Registered(routes, "", m, p, hs) == forwarded)
            && (!IsAbsolute(p) && forwarded.panicked.None? ==>
                  Registered(routes, "", m, p, hs) == Routing(forwarded.routes, Some(DuplicateRoute(JoinPaths("/", p)))))
  {
    var fwd := Route(m, JoinPaths("/", p), [Forwarder]);
    var forwarded := HandleStep(Routing(routes, None), p, fwd);
    assert "" + p == p;
    RootJoinFixesAbsolute(p);
    if IsAbsolute(p) {
      if !RouteExists(routes, m, p) {
        assert forwarded.panicked.None? ==> forwarded.routes[|routes|] == fwd;
      }
    } else if forwarded.panicked.None? {
      if RouteExists(routes, m, p) {
        FoundIsStored(routes, m, p);
      }
      assert forwarded.routes[|routes|] == fwd;
      assert RouteExists(forwarded.routes, m, JoinPaths("/", p));
      assert JoinPaths("/", p) != p;
    }
  }

  /** The path the forwarder dispatches to: "/", then the header's value, then the original path. */
  function ForwardedPath(header: Header, path: string): (r: string)
    ensures |r| == 1 + |HeaderGet(header, AcceptVersionHeader)| + |path|
    ensures r[0] == '/' && r[|r| - |path|..] == path
  {
    "/" + HeaderGet(header, AcceptVersionHeader) + path
  }

  /**
   * A request on an absolute p carrying Accept-version v is forwarded to
   * the route that a successful handle(m, p, hs) registered on the router
   * WithVersion("/" + v), when "/" + v + p is clean: a v that is empty or
   * ends in '/' gives an empty segment that gin would clean away.
   */
  lemma ForwardReachesVersionedRoute(routes: seq<Route>, v: string, m: string, p: string,
                                     hs: seq<Handler>, header: Header)
    requires AllAbsolute(routes) && IsAbsolute(p) && IsClean("/" + v + p)
    requires Registered(routes, "/" + v, m, p, hs).panicked.None?
    requires HeaderGet(header, AcceptVersionHeader) == v
    ensures RouteExists(Registered(routes, "/" + v, m, p, hs).routes, m, ForwardedPath(header, JoinPaths("/", p)))
  {
    RegisteredRoutesBoth(routes, "/" + v, m, p, hs);
    RootJoinFixesAbsolute(p);
    RootJoinFixesAbsolute("/" + v + p);
    assert ForwardedPath(header, p) == ("/" + v) + p;
  }

  /** The per-engine router: the engine and the versions initialized on it. */
  class Router {
    const engine: Engine
    var versionGroups: set<string>

    /** NewRouter: no version groups yet. */
    constructor (engine: Engine)
      ensures this.engine == engine && versionGroups == {}
    {
      this.engine := engine;
      versionGroups := {};
    }

    /** Default: a router carrying the empty version over the same engine. */
    function Default(): (vr: VersionedRouter)
      ensures vr.router == this && vr.version == ""
    {
      VersionedRouter("", this)
    }

    /**
     * WithVersion: panics when `version` was initialized before, leaving
     * the groups as they were; otherwise records it and returns a router
     * carrying it.
     */
    method WithVersion(version: string) returns (r: Result<VersionedRouter, Panic>)
      modifies this
      ensures version in old(versionGroups) ==> r == Failure(Panic(DuplicateVersionMessage)) && versionGroups == old(versionGroups)
      ensures version !in old(versionGroups) ==> r == Success(VersionedRouter(version, this)) && versionGroups == old(versionGroups) + {version}
    {
      if version in versionGroups {
        return Failure(Panic(DuplicateVersionMessage));
      }
      versionGroups := versionGroups + {version};
      return Success(VersionedRouter(version, this));
    }
  }

  /** A router together with the version its registrations go under. */
  datatype VersionedRouter = VersionedRouter(version: string, router: Router) {

    /** isRouteExist: a scan of the engine's routes for this method and exactly this path. */
    method IsRouteExist(m: string, p: string) returns (found: bool)
      ensures found <==> RouteExists(router.engine.routes, m, p)
    {
      var routes := router.engine.routes;
      var i := 0;
      while i < |routes|
        invariant 0 <= i <= |routes|
        invariant forall j | 0 <= j < i :: routes[j].httpMethod != m || routes[j].path != p
      {
        if routes[i].httpMethod == m && routes[i].path == p {
          return true;
        }
        i := i + 1;
      }
      return false;
    }

    /**
     * handle: the forwarder on p and the handlers on version + p, each only
     * when isRouteExist does not find its path; the first panic stops it.
     */
    method Handle(m: string, p: string, hs: seq<Handler>) returns (panicked: Option<Panic>)
      modifies router.engine
      ensures Routing(router.engine.routes, panicked) == Registered(old(router.engine.routes), version, m, p, hs)
    {
      var present := IsRouteExist(m, p);
      if !present {
        panicked := router.engine.Handle(m, p, [Forwarder]);
        if panicked.Some? {
          return;
        }
      }
      var versioned := version + p;
      present := IsRouteExist(m, versioned);
      panicked := None;
      if !present {
        panicked := router.engine.Handle(m, versioned, hs);
      }
    }

    /** Get: handle with GET. */
    method Get(p: string, hs: seq<Handler>) returns (panicked: Option<Panic>)
      modifies router.engine
      ensures Routing(router.engine.routes, panicked) == Registered(old(router.engine.routes), version, MethodGet, p, hs)
    {
      panicked := Handle(MethodGet, p, hs);
    }

    /** Post: handle with POST. */
    method Post(p: string, hs: seq<Handler>) returns (panicked: Option<Panic>)
      modifies router.engine
      ensures Routing(router.engine.routes, panicked) == Registered(old(router.engine.routes), version, MethodPost, p, hs)
    {
      panicked := Handle(MethodPost, p, hs);
    }

    /**
     * The forwarder: an empty header writes 400 and the request still goes
     * on; the path becomes ForwardedPath and the engine dispatches the
     * request once more, with gin's key store reset.
     */
    method Forward(c: Context)
      modifies c
      ensures c.written == old(c.written)
                + (if HeaderGet(old(c.header), AcceptVersionHeader) == "" then [(StatusBadRequest, EmptyVersionMessage)] else [])
      ensures c.path == ForwardedPath(old(c.header), old(c.path))
      ensures c.dispatched == old(c.dispatched) + [c.path]
      ensures c.keys == map[]
      ensures c.header == old(c.header) && c.nextCalls == old(c.nextCalls)
      ensures c.requestContext == old(c.requestContext)
    {
      var version := HeaderGet(c.header, AcceptVersionHeader);
      if |version| == 0 {
        c.String(StatusBadRequest, EmptyVersionMessage);
      }
      c.path := "/" + version + c.path;
      router.engine.HandleContext(c);
    }
  }

  /** With no Accept-version header the request is still forwarded, to "/" + path. */
  lemma EmptyHeaderStillForwards(header: Header, path: string)
    requires HeaderGet(header, AcceptVersionHeader) == ""
    ensures ForwardedPath(header, path) == "/" + path
  {
  }
}
