/**
 * internal/app/components/factory.go: the factory of the components the
 * API handlers depend on, and the gists logic it builds
 * (internal/app/logic/gists.go).
 *
 * The factory only builds values; the lines it logs are returned with
 * what it built.
 */
module Components {
  import opened Wrappers
  import opened Logger
  import opened Metrics
  import opened Handlers

  datatype FactoryError = ErrNoLoggerProvided

  const NoLoggerProvidedMessage := "no logger provided"

  /** What a create method built, and the lines it logged while doing so. */
  datatype Created<T> = Created(result: T, logged: seq<Entry>)

  /** NewGistsLogic: the logic has no state and is always built. */
  function NewGistsLogic(log: Log, reporter: Reporter): (r: Result<GistsLogic, MetricsError>)
    ensures r.Success?
  {
    Success(GistsLogic)
  }

  /** The factory holds the logger it was given. */
  datatype ComponentFactory = ComponentFactory(log: Log) {

    /**
     * CreateApiMetricsReporter: a reporter over the factory's logger with
     * function "CreateApiMetricsReporter"; since that logger is never nil
     * the reporter is always built.
     */
    function CreateApiMetricsReporter(): (c: Created<Result<Reporter, MetricsError>>)
      ensures c.result.Success?
      ensures c.result.value.log.sink == log.sink
      ensures c.result.value.log.fields == log.fields[FieldFunction := Str("CreateApiMetricsReporter")]
      ensures c.logged == [Entry(InfoLevel, log.fields[FieldFunction := Str("CreateApiMetricsReporter")],
                                 "Creating Api Metrics Reporter")]
    {
      var l := log.WithField(FieldFunction, Str("CreateApiMetricsReporter"));
      Created(NewReporter(Some(l)), [Entry(InfoLevel, l.fields, "Creating Api Metrics Reporter")])
    }

    /**
     * CreateGistsLogic: a failing reporter is logged and returned without
     * building the logic; otherwise the logic over the derived logger and
     * reporter. The reporter never fails here, so neither does this.
     */
    function CreateGistsLogic(): (c: Created<Result<GistsLogic, MetricsError>>)
      ensures c.result.Success?
      ensures c.logged == [Entry(InfoLevel, log.fields[FieldFunction := Str("CreateGistsLogic")], "Creating Gists logic")]
    {
      var l := log.WithField(FieldFunction, Str("CreateGistsLogic"));
      var info := Entry(InfoLevel, l.fields, "Creating Gists logic");
      match NewReporter(Some(l))
      case Failure(_) =>
        Created(Failure(MetricsError.ErrNoLoggerProvided),
                [info, l.ErrorEntry(ErrorValue(NoLoggerProvidedMessage), "Failed to create business logic Metrics Reporter")])
      case Success(reporter) =>
        Created(NewGistsLogic(l, reporter), [info])
    }
  }

  /** NewComponentFactory: a nil logger is refused; otherwise the factory keeps it unchanged. */
  function NewComponentFactory(log: Option<Log>): (r: Result<ComponentFactory, FactoryError>)
    ensures r.Failure? <==> log.None?
    ensures r.Failure? ==> r.error == FactoryError.ErrNoLoggerProvided
    ensures r.Success? ==> r.value.log == log.value
  {
    match log
    case None => Failure(FactoryError.ErrNoLoggerProvided)
    case Some(l) => Success(ComponentFactory(l))
  }
}
