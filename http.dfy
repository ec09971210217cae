/**
 * The parts of net/http, context and gin that the service's request layer
 * touches: header maps and their canonical keys, request-scoped context
 * values, the engine's route table, router groups and the per-request
 * gin context.
 */
module Http {
  import opened Wrappers

  const MethodGet := "GET"
  const MethodPost := "POST"
  const MethodPut := "PUT"
  const MethodDelete := "DELETE"

  const StatusOK := 200
  const StatusCreated := 201
  const StatusNoContent := 204
  const StatusBadRequest := 400
  const StatusInternalServerError := 500

  /** The correlation header name as the service spells it. */
  const HeaderCorrelationId := "x-request-id"

  // ---------------------------------------------------------------------
  // Header names (section 5.1 of RFC 9110: field names are case-insensitive)
  // ---------------------------------------------------------------------

  /** A token character of a field name (section 5.6.2 of RFC 9110). */
  predicate IsTokenChar(c: char)
  {
    || 'a' <= c <= 'z' || 'A' <= c <= 'Z' || '0' <= c <= '9'
    || c == '!' || c == '#' || c == '$' || c == '%' || c == '&' || c == '\'' || c == '*'
    || c == '+' || c == '-' || c == '.' || c == '^' || c == '_' || c == '`' || c == '|' || c == '~'
  }

  function ToUpper(c: char): char
  {
    if 'a' <= c <= 'z' then (c as int - 32) as char else c
  }

  function ToLower(c: char): char
  {
    if 'A' <= c <= 'Z' then (c as int + 32) as char else c
  }

  /**
   * http.CanonicalHeaderKey: a name made only of token characters gets
   * its first letter and every letter after a '-' upper-cased and the rest
   * lower-cased; any other name is returned unchanged.
   */
  function CanonicalHeaderKey(s: string): (r: string)
    ensures |r| == |s|
  {
    if IsTokenName(s) then seq(|s|, i requires 0 <= i < |s| => CanonicalChar(s, i))
    else s
  }

  /** A name made only of token characters. */
  predicate IsTokenName(s: string)
  {
    forall i | 0 <= i < |s| :: IsTokenChar(s[i])
  }

  /** The character at i of a canonical token name: upper case first and after '-', lower case elsewhere. */
  function CanonicalChar(s: string, i: nat): char
    requires i < |s|
  {
    if i == 0 || s[i - 1] == '-' then ToUpper(s[i]) else ToLower(s[i])
  }

  /** Case folding as the canonical form sees it, one character at a time. */
  lemma SameUpToCase(a: char, b: char)
    requires ToLower(a) == ToLower(b)
    ensures IsTokenChar(a) <==> IsTokenChar(b)
    ensures ToUpper(a) == ToUpper(b)
    ensures a == '-' <==> b == '-'
  {
  }

  /** Two token names that differ only in letter case have the same canonical key. */
  lemma CanonicalHeaderKeyIgnoresCase(s: string, t: string)
    requires |s| == |t|
    requires forall i | 0 <= i < |s| :: IsTokenChar(s[i])
    requires forall i | 0 <= i < |s| :: ToLower(s[i]) == ToLower(t[i])
    ensures CanonicalHeaderKey(s) == CanonicalHeaderKey(t)
  {
    forall i | 0 <= i < |s|
      ensures IsTokenChar(t[i]) && ToUpper(s[i]) == ToUpper(t[i]) && (s[i] == '-' <==> t[i] == '-')
    {
      SameUpToCase(s[i], t[i]);
    }
    var cs, ct := CanonicalHeaderKey(s), CanonicalHeaderKey(t);
    forall i | 0 <= i < |s|
      ensures cs[i] == ct[i]
    {
      if i > 0 {
        assert s[i - 1] == '-' <==> t[i - 1] == '-';
      }
    }
  }

  /** Changing the case of a token character keeps it a token character, and '-' stays '-'. */
  lemma CaseKeepsToken(c: char)
    requires IsTokenChar(c)
    ensures IsTokenChar(ToUpper(c)) && (ToUpper(c) == '-' <==> c == '-')
    ensures IsTokenChar(ToLower(c)) && (ToLower(c) == '-' <==> c == '-')
  {
    if 'a' <= c <= 'z' {
      assert 'A' <= ToUpper(c) <= 'Z';
    } else if 'A' <= c <= 'Z' {
      assert 'a' <= ToLower(c) <= 'z';
    }
  }

  /** The canonical form of a token name is a token name with its '-' in the same places. */
  lemma CanonicalOfToken(s: string, i: int)
    requires forall j | 0 <= j < |s| :: IsTokenChar(s[j])
    requires 0 <= i < |s|
    ensures IsTokenChar(CanonicalHeaderKey(s)[i])
    ensures CanonicalHeaderKey(s)[i] == '-' <==> s[i] == '-'
  {
    assert IsTokenName(s);
    assert CanonicalHeaderKey(s)[i] == CanonicalChar(s, i);
    CaseKeepsToken(s[i]);
  }

  /** Canonicalizing a canonical key changes nothing. */
  lemma CanonicalHeaderKeyIdempotent(s: string)
    ensures CanonicalHeaderKey(CanonicalHeaderKey(s)) == CanonicalHeaderKey(s)
  {
    var r := CanonicalHeaderKey(s);
    if forall i | 0 <= i < |s| :: IsTokenChar(s[i]) {
      forall i | 0 <= i < |r|
        ensures IsTokenChar(r[i])
      {
        CanonicalOfToken(s, i);
      }
      var rr := CanonicalHeaderKey(r);
      forall i | 0 <= i < |r|
        ensures rr[i] == r[i]
      {
        var upper := i == 0 || s[i - 1] == '-';
        if i > 0 {
          CanonicalOfToken(s, i - 1);
        }
        assert r[i] == if upper then ToUpper(s[i]) else ToLower(s[i]);
        assert rr[i] == if upper then ToUpper(r[i]) else ToLower(r[i]);
      }
    }
  }

  /** The header map of a request, keyed by canonical name. */
  type Header = map<string, seq<string>>

  /** Header.Get: the first value under the canonical key, or "" when there is none. */
  function HeaderGet(h: Header, key: string): (r: string)
    ensures CanonicalHeaderKey(key) in h && |h[CanonicalHeaderKey(key)]| > 0 ==> r == h[CanonicalHeaderKey(key)][0]
    ensures r != "" ==> CanonicalHeaderKey(key) in h
  {
    var k := CanonicalHeaderKey(key);
    if k in h && |h[k]| > 0 then h[k][0] else ""
  }

  /**
   * Header.Set: the canonical key now holds exactly `value`, so Get under
   * any spelling of the name returns it; every other name keeps its values.
   */
  function HeaderSet(h: Header, key: string, value: string): (r: Header)
    ensures HeaderGet(r, key) == value
    ensures r.Keys == h.Keys + {CanonicalHeaderKey(key)}
    ensures forall k | k in h && k != CanonicalHeaderKey(key) :: r[k] == h[k]
  {
    CanonicalHeaderKeyIdempotent(key);
    h[CanonicalHeaderKey(key) := [value]]
  }

  // ---------------------------------------------------------------------
  // context.Context values and gin's per-request key store
  // ---------------------------------------------------------------------

  /** A context key: Go compares keys by dynamic type and by value. */
  datatype ContextKey = ContextKey(typeName: string, name: string)

  /** The values a request-scoped context carries. */
  type RequestContext = map<ContextKey, string>

  /**
   * A string lookup that yields Go's zero value "" for a missing key: gin's
   * Context.GetString, Query and Param, and a JSON member the decoder
   * did not find.
   */
  function Lookup(m: map<string, string>, key: string): (r: string)
    ensures key in m ==> r == m[key]
    ensures key !in m ==> r == ""
  {
    if key in m then m[key] else ""
  }

  // ---------------------------------------------------------------------
  // Routes
  // ---------------------------------------------------------------------

  /** A handler in a route's chain: the version forwarder or a named handler function. */
  datatype Handler = Forwarder | HandlerFunc(name: string)

  datatype Route = Route(httpMethod: string, path: string, handlers: seq<Handler>)

  /** A Go panic, with its message. */
  datatype Panic = Panic(message: string)

  const PathMustBeAbsoluteMessage := "path must begin with '/'"

  /** The panic gin's route tree raises when a (method, path) pair is registered again. */
  function DuplicateRoute(path: string): Panic
  {
    Panic("handlers are already registered for path '" + path + "'")
  }

  predicate IsAbsolute(path: string)
  {
    |path| > 0 && path[0] == '/'
  }

  /**
   * A path that path.Clean leaves as it is, trailing '/' aside: no empty
   * segment ("//") and no "." or ".." segment, the first one included.
   */
  predicate IsClean(path: string)
  {
    && !StartsWithDotSegment(path)
    && forall i | 0 <= i < |path| :: !DotSegmentAt(path, i)
  }

  /** The path's first segment is "." or "..". */
  predicate StartsWithDotSegment(path: string)
  {
    || (|path| > 0 && path[0] == '.' && (|path| == 1 || path[1] == '/'))
    || (|path| > 1 && path[0] == '.' && path[1] == '.' && (|path| == 2 || path[2] == '/'))
  }

  /** The segment after the '/' at index i is empty, "." or "..". */
  predicate DotSegmentAt(path: string, i: nat)
    requires i < |path|
  {
    && path[i] == '/'
    && var rest := path[i + 1..];
       (|rest| > 0 && rest[0] == '/') || StartsWithDotSegment(rest)
  }

  /** Some route in `routes` has this method and exactly this path. */
  predicate RouteExists(routes: seq<Route>, httpMethod: string, path: string)
  {
    exists i :: 0 <= i < |routes| && routes[i].httpMethod == httpMethod && routes[i].path == path
  }

  /** No (method, path) pair is registered twice. */
  predicate UniqueRoutes(routes: seq<Route>)
  {
    forall i, j :: 0 <= i < j < |routes| ==> routes[i].httpMethod != routes[j].httpMethod || routes[i].path != routes[j].path
  }

  /** Every registered path is absolute. */
  predicate AllAbsolute(routes: seq<Route>)
  {
    forall i | 0 <= i < |routes| :: IsAbsolute(routes[i].path)
  }

  /** What a gin engine's route table can hold: absolute paths, each (method, path) pair once. */
  predicate ValidRoutes(routes: seq<Route>)
  {
    UniqueRoutes(routes) && AllAbsolute(routes)
  }

  /** A route table, with the panic that stopped registering into it, if one did. */
  datatype Routing = Routing(routes: seq<Route>, panicked: Option<Panic>)

  /**
   * engine.addRoute: a path without a leading '/' and a (method, path) pair
   * registered before both panic and leave the table as it was; otherwise
   * the route is appended.
   */
  function AddRouteTo(routes: seq<Route>, r: Route): (res: Routing)
    ensures res.panicked.None? <==> IsAbsolute(r.path) && !RouteExists(routes, r.httpMethod, r.path)
    ensures res.panicked.None? ==> res.routes == routes + [r]
    ensures res.panicked.Some? ==> res.routes == routes
  {
    if !IsAbsolute(r.path) then Routing(routes, Some(Panic(PathMustBeAbsoluteMessage)))
    else if RouteExists(routes, r.httpMethod, r.path) then Routing(routes, Some(DuplicateRoute(r.path)))
    else Routing(routes + [r], None)
  }

  /** Registering keeps a valid table valid, and what succeeds is routed afterwards. */
  lemma AddRouteKeepsValid(routes: seq<Route>, r: Route)
    requires ValidRoutes(routes)
    ensures ValidRoutes(AddRouteTo(routes, r).routes)
    ensures AddRouteTo(routes, r).panicked.None? ==> RouteExists(AddRouteTo(routes, r).routes, r.httpMethod, r.path)
  {
    var res := AddRouteTo(routes, r);
    if res.panicked.None? {
      var rs := res.routes;
      assert rs[|routes|] == r;
      forall i, j | 0 <= i < j < |rs|
        ensures rs[i].httpMethod != rs[j].httpMethod || rs[i].path != rs[j].path
      {
        if j == |routes| {
          assert rs[i] == routes[i];
        }
      }
    }
  }

  /** Routes registered one after the other, stopping at the first panic. */
  function AddRoutes(routes: seq<Route>, rs: seq<Route>): (res: Routing)
    decreases |rs|
  {
    if rs == [] then Routing(routes, None)
    else
      var first := AddRouteTo(routes, rs[0]);
      if first.panicked.Some? then first else AddRoutes(first.routes, rs[1..])
  }

  /**
   * Absolute routes that are pairwise distinct and not yet in the table are
   * all appended, in order, without a panic.
   */
  lemma {:induction false} AddRoutesFresh(routes: seq<Route>, rs: seq<Route>)
    requires AllAbsolute(rs) && UniqueRoutes(rs)
    requires forall i | 0 <= i < |rs| :: !RouteExists(routes, rs[i].httpMethod, rs[i].path)
    ensures AddRoutes(routes, rs) == Routing(routes + rs, None)
    decreases |rs|
  {
    if rs != [] {
      var next := routes + [rs[0]];
      assert AddRouteTo(routes, rs[0]).routes == next;
      forall i | 0 <= i < |rs[1..]|
        ensures !RouteExists(next, rs[1..][i].httpMethod, rs[1..][i].path)
      {
        assert rs[1..][i] == rs[i + 1];
      }
      AddRoutesFresh(next, rs[1..]);
      assert next + rs[1..] == routes + rs;
    }
  }

  /** Registering keeps every route already in the table, in place. */
  lemma {:induction false} AddRoutesExtends(routes: seq<Route>, rs: seq<Route>)
    ensures routes <= AddRoutes(routes, rs).routes
    decreases |rs|
  {
    if rs != [] && AddRouteTo(routes, rs[0]).panicked.None? {
      AddRoutesExtends(AddRouteTo(routes, rs[0]).routes, rs[1..]);
    }
  }

  /**
   * gin's joinPaths on paths whose join is clean (IsClean): the
   * base alone for an empty relative path, otherwise path.Join of the two,
   * keeping a trailing '/' of the relative path.
   */
  function JoinPaths(base: string, rel: string): (r: string)
    ensures IsAbsolute(base) ==> IsAbsolute(r)
  {
    if rel == "" then base
    else if base == "" then rel
    else TrimTrailingSlash(base) + "/" + TrimLeadingSlash(rel)
  }

  function TrimTrailingSlash(s: string): string
  {
    if |s| > 0 && s[|s| - 1] == '/' then s[..|s| - 1] else s
  }

  function TrimLeadingSlash(s: string): string
  {
    if |s| > 0 && s[0] == '/' then s[1..] else s
  }

  /** Joining onto the root leaves a path unchanged exactly when it is already absolute. */
  lemma RootJoinFixesAbsolute(p: string)
    ensures JoinPaths("/", p) == p <==> IsAbsolute(p)
  {
    if IsAbsolute(p) {
      assert JoinPaths("/", p) == "/" + p[1..];
    }
  }

  /**
   * Joining a clean path onto the root gives a clean path: what gin stores
   * for it is then exactly JoinPaths("/", p), with nothing left to clean.
   */
  lemma RootJoinKeepsClean(p: string)
    requires IsClean(p)
    ensures IsClean(JoinPaths("/", p))
  {
    if p == "" {
      assert !DotSegmentAt("/", 0);
    } else if p[0] == '/' {
      RootJoinFixesAbsolute(p);
    } else {
      assert JoinPaths("/", p) == "/" + p;
      SlashBeforeRelativeKeepsClean(p);
    }
  }

  /** A '/' put before a clean relative path neither empties nor dots a segment. */
  lemma SlashBeforeRelativeKeepsClean(p: string)
    requires p != "" && p[0] != '/' && IsClean(p)
    ensures IsClean("/" + p)
  {
    var q := "/" + p;
    forall i | 0 <= i < |q|
      ensures !DotSegmentAt(q, i)
    {
      if i > 0 {
        assert q[i..] == p[i - 1..];
        assert !DotSegmentAt(p, i - 1);
      } else {
        assert q[1..] == p;
      }
    }
  }

  /** The route table of a gin engine. */
  class Engine {
    var routes: seq<Route>

    constructor ()
      ensures routes == []
    {
      routes := [];
    }

    /** engine.addRoute: the route is added, or the panic it raises is returned. */
    method AddRoute(httpMethod: string, path: string, handlers: seq<Handler>) returns (panicked: Option<Panic>)
      modifies this
      ensures Routing(routes, panicked) == AddRouteTo(old(routes), Route(httpMethod, path, handlers))
    {
      var res := AddRouteTo(routes, Route(httpMethod, path, handlers));
      routes := res.routes;
      panicked := res.panicked;
    }

    /** Engine.Handle: the engine is the group at "/", so the path is joined onto "/". */
    method Handle(httpMethod: string, path: string, handlers: seq<Handler>) returns (panicked: Option<Panic>)
      modifies this
      ensures Routing(routes, panicked) == AddRouteTo(old(routes), Route(httpMethod, JoinPaths("/", path), handlers))
    {
      panicked := AddRoute(httpMethod, JoinPaths("/", path), handlers);
    }

    /**
     * Engine.HandleContext: the context is reset, which empties gin's key
     * store, and dispatched again under its current path.
     */
    method HandleContext(c: Context)
      modifies c
      ensures c.dispatched == old(c.dispatched) + [c.path]
      ensures c.keys == map[]
      ensures c.path == old(c.path) && c.header == old(c.header)
      ensures c.written == old(c.written) && c.nextCalls == old(c.nextCalls)
      ensures c.requestContext == old(c.requestContext)
    {
      c.keys := map[];
      c.dispatched := c.dispatched + [c.path];
    }
  }

  /** A gin RouterGroup: a base path over an engine. */
  class RouterGroup {
    const engine: Engine
    const basePath: string

    constructor (engine: Engine, basePath: string)
      ensures this.engine == engine && this.basePath == basePath
    {
      this.engine := engine;
      this.basePath := basePath;
    }

    /** Group: a new group under `rel` on the same engine. */
    method Group(rel: string) returns (g: RouterGroup)
      ensures fresh(g) && g.engine == engine && g.basePath == JoinPaths(basePath, rel)
    {
      g := new RouterGroup(engine, JoinPaths(basePath, rel));
    }

    /** GET, POST, PUT, DELETE: the route is added under the group's base path, or its panic returned. */
    method Handle(httpMethod: string, rel: string, handlers: seq<Handler>) returns (panicked: Option<Panic>)
      modifies engine
      ensures Routing(engine.routes, panicked) == AddRouteTo(old(engine.routes), Route(httpMethod, JoinPaths(basePath, rel), handlers))
    {
      panicked := engine.AddRoute(httpMethod, JoinPaths(basePath, rel), handlers);
    }
  }

  /** What the rest of the chain observed when c.Next() ran it. */
  datatype Snapshot = Snapshot(header: Header, keys: map<string, string>)

  /**
   * The per-request gin context: the request's path, headers and context,
   * gin's key store, and what the handlers did with it (strings written,
   * re-dispatches, calls of the rest of the chain).
   */
  class Context {
    var path: string
    var header: Header
    var requestContext: RequestContext
    var keys: map<string, string>
    var written: seq<(int, string)>
    var dispatched: seq<string>
    var nextCalls: seq<Snapshot>

    constructor (path: string, header: Header, requestContext: RequestContext)
      ensures this.path == path && this.header == header && this.requestContext == requestContext
      ensures keys == map[] && written == [] && dispatched == [] && nextCalls == []
    {
      this.path := path;
      this.header := header;
      this.requestContext := requestContext;
      keys := map[];
      written := [];
      dispatched := [];
      nextCalls := [];
    }

    /** Context.String: a status and a plain-text body written to the response. */
    method String(status: int, body: string)
      modifies this
      ensures written == old(written) + [(status, body)]
      ensures path == old(path) && header == old(header) && keys == old(keys)
      ensures dispatched == old(dispatched) && nextCalls == old(nextCalls)
      ensures requestContext == old(requestContext)
    {
      written := written + [(status, body)];
    }

    /** Context.Next: the rest of the chain runs once, seeing the current header and keys. */
    method Next()
      modifies this
      ensures nextCalls == old(nextCalls) + [Snapshot(header, keys)]
      ensures path == old(path) && header == old(header) && keys == old(keys)
      ensures written == old(written) && dispatched == old(dispatched)
      ensures requestContext == old(requestContext)
    {
      nextCalls := nextCalls + [Snapshot(header, keys)];
    }
  }
}
