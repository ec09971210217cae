/**
 * internal/app/api/helpers: reading the request's context model out of the
 * gin context (gincontext.go) and answering with a single error
 * (errors.go).
 *
 * These helpers only compute values; what they hand to the logger is
 * returned alongside the result as the list of records logged.
 */
module Helpers {
  import opened Wrappers
  import opened Logger
  import opened Http
  import opened LogCorrelation
  import opened Models

  /** The fields the middleware layer made available to the handlers. */
  datatype ContextModel = ContextModel(correlationId: string)

  datatype ContextError = ErrFailedToParseGinContext

  const FailedToParseGinContextMessage := "failed to parse gin context"
  const ParseContextFailedMessage := "Failed to parse the gin context"

  /** ExtractContextModel: the correlation id gin's key store holds; it never fails. */
  function ExtractContextModel(c: Context): (r: Result<ContextModel, ContextError>)
    reads c
    ensures r.Success?
    ensures r.value.correlationId == Lookup(c.keys, HeaderCorrelationId)
  {
    Success(ContextModel(Lookup(c.keys, HeaderCorrelationId)))
  }

  /** What ParseContext returns: logger, context (None for nil), model, error, and what it logged. */
  datatype Parsed = Parsed(log: Log, ctx: Option<RequestContext>, model: ContextModel,
                           err: Option<ContextError>, logged: seq<Entry>)

  /**
   * ParseContext's decision over a given extraction outcome: the FromGin
   * logger always; on failure the error is logged and the context is nil
   * and the model empty.
   */
  function ParseContextWith(parent: Log, c: Context, functionName: string,
                            extracted: Result<ContextModel, ContextError>): (p: Parsed)
    reads c
    ensures p.log == FromGin(parent, c, functionName).0
    ensures p.err.Some? <==> extracted.Failure?
    ensures extracted.Success? ==> && p.ctx == Some(FromGin(parent, c, functionName).1)
                                   && p.model == extracted.value && p.logged == []
    ensures extracted.Failure? ==> && p.ctx == None && p.model == ContextModel("")
                                   && p.err == Some(extracted.error)
                                   && p.logged == [p.log.ErrorEntry(ErrorValue(FailedToParseGinContextMessage),
                                                                    ParseContextFailedMessage)]
  {
    var (log, ctx) := FromGin(parent, c, functionName);
    match extracted
    case Failure(err) =>
      Parsed(log, None, ContextModel(""), Some(err),
             [log.ErrorEntry(ErrorValue(FailedToParseGinContextMessage), ParseContextFailedMessage)])
    case Success(cm) =>
      Parsed(log, Some(ctx), cm, None, [])
  }

  /** ParseContext: over the real extraction, it never fails and logs nothing. */
  function ParseContext(parent: Log, c: Context, functionName: string): (p: Parsed)
    reads c
    ensures p.err.None? && p.logged == [] && p.ctx.Some?
    ensures p.model.correlationId == Lookup(c.keys, HeaderCorrelationId)
  {
    ParseContextWith(parent, c, functionName, ExtractContextModel(c))
  }

  /**
   * After ParseContext the model's correlation id is the one the logger
   * carries and the one the context carries.
   */
  lemma ParseContextSucceeds(parent: Log, c: Context, functionName: string)
    ensures var p := ParseContext(parent, c, functionName);
            && p.ctx.Some?
            && p.log.fields[FieldCorrelation] == Str(p.model.correlationId)
            && p.ctx.value[CorrelationId] == p.model.correlationId
  {
  }

  // ---------------------------------------------------------------------
  // Responses
  // ---------------------------------------------------------------------

  /** The JSON bodies the API answers with. */
  datatype Body = Errors(errors: seq<Error>) | Infos(infos: seq<GistInfo>) | Info(info: GistInfo) | Details(details: GistDetails)

  /** A response handed to AbortWithStatusJSON, with the records logged on the way. */
  datatype Reply = Reply(status: int, body: Body, logged: seq<Entry>)

  /**
   * AbortWithError: the error code is logged as the error with errorMsg as
   * the message, and the response is exactly one Error with an empty detail.
   */
  function AbortWithError(log: Log, status: int, errorCode: string, errorMsg: string): (r: Reply)
    ensures r.status == status
    ensures r.body.Errors? && |r.body.errors| == 1
    ensures r.body.errors[0] == Error(errorCode, errorMsg, "")
    ensures |r.logged| == 1 && r.logged[0].level == ErrorLevel && r.logged[0].message == errorMsg
    ensures r.logged[0].fields == ErrorFields(log.fields, ErrorValue(errorCode))
    ensures r.logged[0].fields[FieldError] == ErrorValue(errorCode)
    ensures forall k | k in log.fields && k != FieldError :: r.logged[0].fields[k] == log.fields[k]
  {
    Reply(status, Errors([Error(errorCode, errorMsg, "")]), [log.ErrorEntry(ErrorValue(errorCode), errorMsg)])
  }
}
