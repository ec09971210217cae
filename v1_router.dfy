/**
 * internal/app/api/v1/router.go: the root of the v1 API, which checks its
 * dependencies on construction and mounts the gists handler under "gists".
 */
module V1 {
  import opened Wrappers
  import opened Logger
  import opened Http
  import opened Handlers

  /** The sub-path the gists resource is mounted under. */
  const GistsRoute := "gists"

  datatype V1Error = ErrNoLoggerProvided | ErrNoGistsHandlerProvided

  /** The v1 root: its logger (with package "v1") and the gists handler. */
  datatype V1Router = V1Router(log: Log, gistsHandler: GistsHandler) {

    /**
     * AttachTo: one info line under function "AttachTo", then the "gists"
     * subgroup with the gists routes under it. A registration panic is
     * passed on; otherwise no error, whatever the child reported.
     */
    method AttachTo(g: RouterGroup) returns (err: Option<AttachError>, panicked: Option<Panic>)
      modifies g.engine, log.sink
      ensures err.None?
      ensures Routing(g.engine.routes, panicked) == AddRoutes(old(g.engine.routes), GistsRoutes(JoinPaths(g.basePath, GistsRoute)))
      ensures log.sink.entries == old(log.sink.entries)
                + [Entry(InfoLevel, log.fields[FieldFunction := Str("AttachTo")], "Handling AttachTo")]
    {
      var l := log.WithField(FieldFunction, Str("AttachTo"));
      l.Emit(InfoLevel, "Handling AttachTo");
      var gistsGroup := g.Group(GistsRoute);
      var _, p := gistsHandler.AttachTo(gistsGroup);
      return None, p;
    }
  }

  /**
   * NewV1Router: a nil logger is refused first, then a nil gists handler;
   * otherwise the router's logger gains package "v1".
   */
  function NewV1Router(log: Option<Log>, gistsHandler: Option<GistsHandler>): (r: Result<V1Router, V1Error>)
    ensures r.Success? <==> log.Some? && gistsHandler.Some?
    ensures log.None? ==> r == Failure(ErrNoLoggerProvided)
    ensures log.Some? && gistsHandler.None? ==> r == Failure(ErrNoGistsHandlerProvided)
    ensures r.Success? ==> && r.value.log.sink == log.value.sink
                           && r.value.log.fields == log.value.fields[FieldPackage := Str("v1")]
                           && r.value.gistsHandler == gistsHandler.value
  {
    if log.None? then Failure(ErrNoLoggerProvided)
    else if gistsHandler.None? then Failure(ErrNoGistsHandlerProvided)
    else Success(V1Router(log.value.WithField(FieldPackage, Str("v1")), gistsHandler.value))
  }

  /** With neither a logger nor a handler, the missing logger is what is reported. */
  lemma LoggerCheckedFirst()
    ensures NewV1Router(None, None) == Failure(ErrNoLoggerProvided)
  {
  }
}
