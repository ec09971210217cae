/**
 * internal/pkg/logger/correlation.go: deriving a request logger and a
 * request context that both carry the correlation id.
 */
module LogCorrelation {
  import opened Logger
  import opened Http

  /** The context key: the unexported key type with the header name as its value. */
  const CorrelationId := ContextKey("contextKeyCorrelationID", HeaderCorrelationId)

  /**
   * FromGin: the parent logger with `functionName` and the correlation id read
   * from gin's key store, and the request context with the same id stored
   * under CorrelationId.
   */
  function FromGin(parent: Log, c: Context, functionName: string): (r: (Log, RequestContext))
    reads c
    ensures r.0.sink == parent.sink
    ensures r.0.fields == parent.fields[FieldFunction := Str(functionName)]
                                       [FieldCorrelation := Str(Lookup(c.keys, HeaderCorrelationId))]
    ensures r.1 == c.requestContext[CorrelationId := Lookup(c.keys, HeaderCorrelationId)]
  {
    var corrId := Lookup(c.keys, HeaderCorrelationId);
    var log := parent.WithFields(map[FieldFunction := Str(functionName), FieldCorrelation := Str(corrId)]);
    var ctx := c.requestContext[CorrelationId := corrId];
    (log, ctx)
  }

  /**
   * FromContext: the parent logger with `functionName` and the context's
   * correlation value; a context without one yields a nil field value.
   */
  function FromContext(parent: Log, ctx: RequestContext, functionName: string): (log: Log)
    ensures log.sink == parent.sink
    ensures log.fields.Keys == parent.fields.Keys + {FieldFunction, FieldCorrelation}
    ensures log.fields[FieldFunction] == Str(functionName)
    ensures log.fields[FieldCorrelation] == if CorrelationId in ctx then Str(ctx[CorrelationId]) else Nil
    ensures forall k :: k in parent.fields && k != FieldFunction && k != FieldCorrelation ==>
              log.fields[k] == parent.fields[k]
  {
    var corrId := if CorrelationId in ctx then Str(ctx[CorrelationId]) else Nil;
    parent.WithFields(map[FieldFunction := Str(functionName), FieldCorrelation := corrId])
  }

  /**
   * Round trip: the context FromGin hands down lets FromContext rebuild the
   * very logger FromGin built.
   */
  lemma FromContextAfterFromGin(parent: Log, c: Context, functionName: string)
    ensures FromContext(parent, FromGin(parent, c, functionName).1, functionName) == FromGin(parent, c, functionName).0
  {
    var (log, ctx) := FromGin(parent, c, functionName);
    var back := FromContext(parent, ctx, functionName);
    assert back.fields == log.fields;
  }

  /**
   * A logger derived further from the request logger keeps its correlation
   * id unless the new fields name correlationId themselves.
   */
  lemma CorrelationSurvivesDerivation(l: Log, extra: Fields)
    requires FieldCorrelation in l.fields && FieldCorrelation !in extra
    ensures l.WithFields(extra).fields[FieldCorrelation] == l.fields[FieldCorrelation]
  {
  }
}
