/**
 * internal/app/api/v1/handlers/gists.go: the handler of the `gists`
 * resource. Registering it adds five routes to a router group; each
 * handler first parses the gin context (answering 500 if that fails),
 * logs that it is handling the request, then picks a status and a body
 * from the query, the path parameters and the request body.
 *
 * A handler is modelled as a function from the context, the outcome of
 * extracting the context model, and the request inputs to the reply.
 */
module Handlers {
  import opened Wrappers
  import opened Logger
  import opened Http
  import opened Models
  import opened Helpers
  import opened LogCorrelation
  import opened Metrics

  /** The package name the handler's logger carries. */
  const Pkg := "api.v1.handlers"

  /** The query key that selects a programming language. */
  const QueryLanguage := "lang"

  /** The path parameter of the single-gist routes. */
  const ParamId := "id"

  /** The business logic behind the handlers; the service's implementation has no state. */
  datatype GistsLogic = GistsLogic

  /** An error AttachTo could report; the gists handler never reports one. */
  datatype AttachError = AttachError(message: string)

  // The fixed records the handlers answer with.
  const FirstGistId := "d17043a0-216c-4c56-9127-b0bf5e3a4c16"
  const SecondGistId := "9faa0e0f-e189-4cff-ae6f-7c0c52b3c876"
  const FirstGistName := "Convert PNG to JPG"
  const FirstGistDescription := "Convert PNG image to JPG image using pillow library"
  const SecondGistName := "Generate unique ID"
  const SecondGistDescription := "Generate a unique UUIDv4"
  const FixedLanguage := "haskell"
  const FixedCode := "for (let i = 0; i < 5; i++) {...}"
  const FixedCreatedAt := "2023-06-07T18:27:25-04:00"
  const FixedLastAccessed := "2023-06-24T08:13:59-04:00"
  const FixedLastUpdated := "2023-06-11T10:44:17-04:00"

  /** The info postGist answers with, whatever the body said. */
  const CreatedInfo := GistInfo(FirstGistId, FirstGistName, FirstGistDescription, FixedLanguage)

  /** The five routes AttachTo registers under a group's base path, in registration order. */
  function GistsRoutes(base: string): seq<Route>
  {
    [ Route(MethodGet, JoinPaths(base, ""), [HandlerFunc("getGists")]),
      Route(MethodPost, JoinPaths(base, ""), [HandlerFunc("postGist")]),
      Route(MethodGet, JoinPaths(base, ":id"), [HandlerFunc("getGist")]),
      Route(MethodPut, JoinPaths(base, ":id"), [HandlerFunc("putGist")]),
      Route(MethodDelete, JoinPaths(base, ":id"), [HandlerFunc("deleteGist")]) ]
  }

  /** The five registrations never collide, whatever the base path. */
  lemma GistsRoutesUnique(base: string)
    ensures UniqueRoutes(GistsRoutes(base))
  {
    var rs := GistsRoutes(base);
    assert |JoinPaths(base, "")| < |JoinPaths(base, ":id")|;
    forall i, j | 0 <= i < j < |rs|
      ensures rs[i].httpMethod != rs[j].httpMethod || rs[i].path != rs[j].path
    {
    }
  }

  /** Mounted at /api/gists, the resource answers on exactly these method and path pairs. */
  lemma GistsRoutesUnderApi()
    ensures GistsRoutes(JoinPaths(JoinPaths("/", "api"), "gists")) ==
              [ Route(MethodGet, "/api/gists", [HandlerFunc("getGists")]),
                Route(MethodPost, "/api/gists", [HandlerFunc("postGist")]),
                Route(MethodGet, "/api/gists/:id", [HandlerFunc("getGist")]),
                Route(MethodPut, "/api/gists/:id", [HandlerFunc("putGist")]),
                Route(MethodDelete, "/api/gists/:id", [HandlerFunc("deleteGist")]) ]
  {
    assert JoinPaths("/", "api") == "/api";
    assert JoinPaths("/api", "gists") == "/api/gists";
    assert JoinPaths("/api/gists", ":id") == "/api/gists/:id";
  }

  /**
   * On a group with an absolute base path whose five routes are still free,
   * AttachTo registers all five, in order, without a panic.
   */
  lemma AttachToFreshGroup(routes: seq<Route>, base: string)
    requires IsAbsolute(base)
    requires forall r | r in GistsRoutes(base) :: !RouteExists(routes, r.httpMethod, r.path)
    ensures AddRoutes(routes, GistsRoutes(base)) == Routing(routes + GistsRoutes(base), None)
  {
    var rs := GistsRoutes(base);
    GistsRoutesUnique(base);
    assert AllAbsolute(rs);
    forall i | 0 <= i < |rs|
      ensures !RouteExists(routes, rs[i].httpMethod, rs[i].path)
    {
      assert rs[i] in rs;
    }
    AddRoutesFresh(routes, rs);
  }

  /** Attaching the resource twice to the same group panics on its first route. */
  lemma AttachTwicePanics(routes: seq<Route>, base: string)
    requires AddRoutes(routes, GistsRoutes(base)).panicked.None?
    ensures var once := AddRoutes(routes, GistsRoutes(base));
            AddRoutes(once.routes, GistsRoutes(base)).panicked == Some(DuplicateRoute(JoinPaths(base, "")))
  {
    var rs := GistsRoutes(base);
    var first := AddRouteTo(routes, rs[0]);
    assert first.routes[|routes|] == rs[0];
    AddRoutesExtends(first.routes, rs[1..]);
    var once := AddRoutes(routes, rs);
    assert once.routes[|routes|] == rs[0];
  }

  /** One step of AddRoutes: the first route, then the rest unless it panicked. */
  lemma AddRoutesStep(routes: seq<Route>, rs: seq<Route>)
    requires rs != []
    ensures var first := AddRouteTo(routes, rs[0]);
            && (first.panicked.Some? ==> AddRoutes(routes, rs) == first)
            && (first.panicked.None? ==> AddRoutes(routes, rs) == AddRoutes(first.routes, rs[1..]))
  {
  }

  /** Mounted at /api/gists on a fresh engine, the resource registers without a panic. */
  lemma ApiMountSucceeds()
    ensures AddRoutes([], GistsRoutes("/api/gists")) == Routing(GistsRoutes("/api/gists"), None)
  {
    AttachToFreshGroup([], "/api/gists");
  }

  /**
   * The reply of every handler when parsing the context failed: what
   * ParseContext logged, then a 500 with the unknown-error code.
   */
  function ContextFailure(p: Parsed): (r: Reply)
    ensures r.status == StatusInternalServerError
    ensures r.body == Errors([Error(ErrUnknownErrorCode, ErrUnknownErrorMsg, "")])
    ensures |r.logged| == |p.logged| + 1 && r.logged[..|p.logged|] == p.logged
    ensures r.logged[|p.logged|].fields == ErrorFields(p.log.fields, ErrorValue(ErrUnknownErrorCode))
  {
    var a := AbortWithError(p.log, StatusInternalServerError, ErrUnknownErrorCode, ErrUnknownErrorMsg);
    a.(logged := p.logged + a.logged)
  }

  /** The reply when the body does not bind to a Gist: the handling line, then a 400. */
  function BindFailure(p: Parsed, handling: Entry): (r: Reply)
    ensures r.status == StatusBadRequest
    ensures r.body == Errors([Error(ErrFailedToParseRequestJsonCode, ErrFailedToParseRequestJsonMsg, "")])
    ensures |r.logged| == 2 && r.logged[0] == handling
    ensures r.logged[1].fields == ErrorFields(p.log.fields, ErrorValue(ErrFailedToParseRequestJsonCode))
  {
    var a := AbortWithError(p.log, StatusBadRequest, ErrFailedToParseRequestJsonCode, ErrFailedToParseRequestJsonMsg);
    a.(logged := [handling] + a.logged)
  }

  /**
   * What a handler logs when the body does not bind: its handling line,
   * then the 400's error line carrying the failed-to-parse code.
   */
  function BindFailureLog(fields: Fields, handling: string): seq<Entry>
  {
    [ Entry(InfoLevel, fields, handling),
      Entry(ErrorLevel, ErrorFields(fields, ErrorValue(ErrFailedToParseRequestJsonCode)), ErrFailedToParseRequestJsonMsg) ]
  }

  /** The handler: its logger (with the package field), the logic and the metrics reporter. */
  datatype GistsHandler = GistsHandler(log: Log, logic: Option<GistsLogic>, metrics: Option<Reporter>) {

    /** The line each handler logs once the context is parsed. */
    function Handling(p: Parsed, message: string): Entry
    {
      Entry(InfoLevel, p.log.fields, message)
    }

    /** getGists: 200 with two fixed gists in the language the `lang` query names. */
    function GetGists(c: Context, extracted: Result<ContextModel, ContextError>, query: map<string, string>): (r: Reply)
      reads c
      ensures extracted.Failure? ==> r == ContextFailure(ParseContextWith(log, c, "getGists", extracted))
      ensures extracted.Success? ==> && r.status == StatusOK && r.body.Infos? && |r.body.infos| == 2
                                     && r.body.infos[0].id == FirstGistId && r.body.infos[1].id == SecondGistId
                                     && (forall i | 0 <= i < 2 :: r.body.infos[i].language == Lookup(query, QueryLanguage))
                                     && r.logged == [Entry(InfoLevel, FromGin(log, c, "getGists").0.fields, "Handling getGists")]
    {
      var p := ParseContextWith(log, c, "getGists", extracted);
      if p.err.Some? then ContextFailure(p)
      else
        var lang := Lookup(query, QueryLanguage);
        Reply(StatusOK,
              Infos([GistInfo(FirstGistId, FirstGistName, FirstGistDescription, lang),
                     GistInfo(SecondGistId, SecondGistName, SecondGistDescription, lang)]),
              [Handling(p, "Handling getGists")])
    }

    /** postGist: 400 when the body does not bind, otherwise 201 with a fixed info. */
    function PostGist(c: Context, extracted: Result<ContextModel, ContextError>, body: JsonBody): (r: Reply)
      reads c
      ensures extracted.Failure? ==> r == ContextFailure(ParseContextWith(log, c, "postGist", extracted))
      ensures extracted.Success? && BindGist(body).None? ==>
                r.status == StatusBadRequest
                && r.body == Errors([Error(ErrFailedToParseRequestJsonCode, ErrFailedToParseRequestJsonMsg, "")])
                && r.logged == BindFailureLog(FromGin(log, c, "postGist").0.fields, "Handling postGist")
      ensures extracted.Success? && BindGist(body).Some? ==>
                r.status == StatusCreated && r.body == Info(CreatedInfo)
                && r.logged == [Entry(InfoLevel, FromGin(log, c, "postGist").0.fields, "Handling postGist")]
    {
      var p := ParseContextWith(log, c, "postGist", extracted);
      if p.err.Some? then ContextFailure(p)
      else
        var handling := Handling(p, "Handling postGist");
        match BindGist(body)
        case None => BindFailure(p, handling)
        case Some(_) => Reply(StatusCreated, Info(CreatedInfo), [handling])
    }

    /** getGist: 200 with fixed details under the path's id. */
    function GetGist(c: Context, extracted: Result<ContextModel, ContextError>, params: map<string, string>): (r: Reply)
      reads c
      ensures extracted.Failure? ==> r == ContextFailure(ParseContextWith(log, c, "getGist", extracted))
      ensures extracted.Success? ==> && r.status == StatusOK && r.body.Details?
                                     && r.body.details.id == Lookup(params, ParamId)
                                     && (ValidGistDetails(r.body.details) <==> Lookup(params, ParamId) != "")
                                     && r.logged == [Entry(InfoLevel, FromGin(log, c, "getGist").0.fields, "Handling getGist")]
    {
      var p := ParseContextWith(log, c, "getGist", extracted);
      if p.err.Some? then ContextFailure(p)
      else
        var id := Lookup(params, ParamId);
        Reply(StatusOK,
              Details(GistDetails(id, FirstGistName, FirstGistDescription, FixedLanguage, FixedCode,
                                  FixedCreatedAt, FixedLastUpdated, FixedLastAccessed)),
              [Handling(p, "Handling getGist")])
    }

    /** putGist: 400 when the body does not bind, otherwise 201 echoing the id and the body. */
    function PutGist(c: Context, extracted: Result<ContextModel, ContextError>,
                     params: map<string, string>, body: JsonBody): (r: Reply)
      reads c
      ensures extracted.Failure? ==> r == ContextFailure(ParseContextWith(log, c, "putGist", extracted))
      ensures extracted.Success? && BindGist(body).None? ==>
                r.status == StatusBadRequest
                && r.body == Errors([Error(ErrFailedToParseRequestJsonCode, ErrFailedToParseRequestJsonMsg, "")])
                && r.logged == BindFailureLog(FromGin(log, c, "putGist").0.fields, "Handling putGist")
      ensures extracted.Success? && BindGist(body).Some? ==>
                var g := BindGist(body).value;
                r.status == StatusCreated && r.body == Info(GistInfo(Lookup(params, ParamId), g.name, g.description, g.language))
                && r.logged == [Entry(InfoLevel, FromGin(log, c, "putGist").0.fields, "Handling putGist")]
    {
      var p := ParseContextWith(log, c, "putGist", extracted);
      if p.err.Some? then ContextFailure(p)
      else
        var handling := Handling(p, "Handling putGist");
        var id := Lookup(params, ParamId);
        match BindGist(body)
        case None => BindFailure(p, handling)
        case Some(g) => Reply(StatusCreated, Info(GistInfo(id, g.name, g.description, g.language)), [handling])
    }

    /** deleteGist: 204 with a fixed info under the path's id. */
    function DeleteGist(c: Context, extracted: Result<ContextModel, ContextError>, params: map<string, string>): (r: Reply)
      reads c
      ensures extracted.Failure? ==> r == ContextFailure(ParseContextWith(log, c, "deleteGist", extracted))
      ensures extracted.Success? ==> && r.status == StatusNoContent && r.body.Info?
                                     && r.body.info == GistInfo(Lookup(params, ParamId), FirstGistName, FirstGistDescription, FixedLanguage)
                                     && r.logged == [Entry(InfoLevel, FromGin(log, c, "deleteGist").0.fields, "Handling deleteGist")]
    {
      var p := ParseContextWith(log, c, "deleteGist", extracted);
      if p.err.Some? then ContextFailure(p)
      else
        Reply(StatusNoContent,
              Info(GistInfo(Lookup(params, ParamId), FirstGistName, FirstGistDescription, FixedLanguage)),
              [Handling(p, "Handling deleteGist")])
    }

    /**
     * AttachTo: the five routes, registered in order on the group's engine;
     * a registration that panics stops the rest. It reports no error.
     */
    method AttachTo(g: RouterGroup) returns (err: Option<AttachError>, panicked: Option<Panic>)
      modifies g.engine
      ensures Routing(g.engine.routes, panicked) == AddRoutes(old(g.engine.routes), GistsRoutes(g.basePath))
      ensures err.None?
    {
      var rs := GistsRoutes(g.basePath);
      err := None;
      AddRoutesStep(g.engine.routes, rs);
      panicked := g.Handle(MethodGet, "", [HandlerFunc("getGists")]);
      if panicked.Some? {
        return;
      }
      AddRoutesStep(g.engine.routes, rs[1..]);
      panicked := g.Handle(MethodPost, "", [HandlerFunc("postGist")]);
      if panicked.Some? {
        return;
      }
      AddRoutesStep(g.engine.routes, rs[2..]);
      panicked := g.Handle(MethodGet, ":id", [HandlerFunc("getGist")]);
      if panicked.Some? {
        return;
      }
      AddRoutesStep(g.engine.routes, rs[3..]);
      panicked := g.Handle(MethodPut, ":id", [HandlerFunc("putGist")]);
      if panicked.Some? {
        return;
      }
      AddRoutesStep(g.engine.routes, rs[4..]);
      panicked := g.Handle(MethodDelete, ":id", [HandlerFunc("deleteGist")]);
    }
  }

  /** NewGistsHandler: it never fails; the logger gains the package field, logic and metrics are kept. */
  function NewGistsHandler(log: Log, logic: Option<GistsLogic>, metrics: Option<Reporter>): (gh: GistsHandler)
    ensures gh.log.sink == log.sink && gh.log.fields == log.fields[FieldPackage := Str(Pkg)]
    ensures gh.logic == logic && gh.metrics == metrics
  {
    GistsHandler(log.WithField(FieldPackage, Str(Pkg)), logic, metrics)
  }

  /** With the real context extraction no handler ever answers 500. */
  lemma HandlersNeverFailOnParse(gh: GistsHandler, c: Context, query: map<string, string>,
                                 params: map<string, string>, body: JsonBody)
    ensures gh.GetGists(c, ExtractContextModel(c), query).status == StatusOK
    ensures gh.PostGist(c, ExtractContextModel(c), body).status in {StatusCreated, StatusBadRequest}
    ensures gh.GetGist(c, ExtractContextModel(c), params).status == StatusOK
    ensures gh.PutGist(c, ExtractContextModel(c), params, body).status in {StatusCreated, StatusBadRequest}
    ensures gh.DeleteGist(c, ExtractContextModel(c), params).status == StatusNoContent
  {
    var e := ExtractContextModel(c);
    assert e.Success?;
  }

  /** postGist's answer to a body that binds does not depend on what the body says. */
  lemma PostIgnoresBody(gh: GistsHandler, c: Context, extracted: Result<ContextModel, ContextError>, b1: JsonBody, b2: JsonBody)
    requires BindGist(b1).Some? && BindGist(b2).Some?
    ensures gh.PostGist(c, extracted, b1) == gh.PostGist(c, extracted, b2)
  {
  }

  /** An empty JSON object `{}` posted is answered 400 with exactly one error. */
  lemma PostEmptyObject(gh: GistsHandler, c: Context)
    ensures var r := gh.PostGist(c, ExtractContextModel(c), Object(map[]));
            r.status == StatusBadRequest && r.body.Errors? && |r.body.errors| == 1
            && r.body.errors[0].code == ErrFailedToParseRequestJsonCode
  {
    EmptyObjectFailsToBind();
  }

  /** putGist answers with a valid info whenever the path id is non-empty and the body binds. */
  lemma PutAnswersValidInfo(gh: GistsHandler, c: Context, params: map<string, string>, body: JsonBody)
    requires Lookup(params, ParamId) != "" && BindGist(body).Some?
    ensures var r := gh.PutGist(c, ExtractContextModel(c), params, body);
            r.body.Info? && ValidGistInfo(r.body.info)
  {
    var e := ExtractContextModel(c);
    assert e.Success?;
    assert ValidGist(BindGist(body).value);
  }

  /**
   * getGists answers with valid infos exactly when a language was asked
   * for: without `lang` both infos lack the required language.
   */
  lemma GetGistsValidIffLanguage(gh: GistsHandler, c: Context, query: map<string, string>)
    ensures var r := gh.GetGists(c, ExtractContextModel(c), query);
            r.body.Infos? && ((forall i | 0 <= i < |r.body.infos| :: ValidGistInfo(r.body.infos[i]))
                              <==> Lookup(query, QueryLanguage) != "")
  {
    var e := ExtractContextModel(c);
    assert e.Success?;
    var r := gh.GetGists(c, e, query);
    assert ValidGistInfo(r.body.infos[0]) <==> Lookup(query, QueryLanguage) != "";
  }

  /**
   * A gist without a description binds, and postGist answers 201 with its
   * fixed info, not with the name and language that were sent.
   */
  lemma PostWithoutDescription(gh: GistsHandler, c: Context)
    ensures var r := gh.PostGist(c, ExtractContextModel(c),
                                 Object(map["name" := "x", "language" := "go", "code" := "package main"]));
            r.status == StatusCreated && r.body == Info(CreatedInfo) && r.body.info.language == FixedLanguage
  {
    var body := Object(map["name" := "x", "language" := "go", "code" := "package main"]);
    ValidGistFromJson(body.members);
    assert BindGist(body).Some?;
  }
}
