/**
 * internal/pkg/metrics/reporter.go over the counters declared in
 * internal/pkg/metrics/metrics.go: a reporter needs a logger, and each
 * report logs one line and increments labelled request counters.
 */
module Metrics {
  import opened Wrappers
  import opened Logger

  datatype MetricsError = ErrNoLoggerProvided

  /** The value a counter vector reports for a label tuple: zero until first incremented. */
  function Count<K>(m: map<K, nat>, k: K): nat
  {
    if k in m then m[k] else 0
  }

  /** Inc on the counter for label `k`: that counter grows by one, every other stays. */
  function Inc<K(!new)>(m: map<K, nat>, k: K): (r: map<K, nat>)
    ensures r.Keys == m.Keys + {k}
    ensures Count(r, k) == Count(m, k) + 1
    ensures forall j | j != k :: Count(r, j) == Count(m, j)
  {
    m[k := Count(m, k) + 1]
  }

  /** Increments commute: the counters do not depend on the order reports arrive in. */
  lemma IncCommutes<K(!new)>(m: map<K, nat>, a: K, b: K)
    ensures Inc(Inc(m, a), b) == Inc(Inc(m, b), a)
  {
    var l, r := Inc(Inc(m, a), b), Inc(Inc(m, b), a);
    assert l.Keys == r.Keys;
    forall k | k in l
      ensures l[k] == r[k]
    {
      assert l[k] == Count(l, k) && r[k] == Count(r, k);
    }
  }

  /**
   * No failure counter exceeds the total of its operation: every failed
   * request was also counted as a request.
   */
  ghost predicate FailuresWithinTotals(total: map<string, nat>, failures: map<(string, string), nat>)
  {
    forall l | l in failures :: failures[l] <= Count(total, l.0)
  }

  /** A processed request keeps every failure counter within its total. */
  lemma ProcessedKeepsBound(total: map<string, nat>, failures: map<(string, string), nat>, op: string)
    requires FailuresWithinTotals(total, failures)
    ensures FailuresWithinTotals(Inc(total, op), failures)
  {
  }

  /** A failed request keeps every failure counter within its total. */
  lemma FailedKeepsBound(total: map<string, nat>, failures: map<(string, string), nat>,
                         op: string, failure: string)
    requires FailuresWithinTotals(total, failures)
    ensures FailuresWithinTotals(Inc(total, op), Inc(failures, (op, failure)))
  {
    var t, f := Inc(total, op), Inc(failures, (op, failure));
    forall l | l in f
      ensures f[l] <= Count(t, l.0)
    {
      assert f[l] == Count(f, l) && Count(f, l) <= Count(failures, l) + 1;
      if l == (op, failure) {
        assert Count(failures, l) <= Count(total, op);
      } else if l in failures {
        assert Count(f, l) == failures[l];
      }
    }
  }

  /** requests_total (by operation) and requests_errors_total (by operation and failure). */
  class Counters {
    var requestsTotal: map<string, nat>
    var requestsFailures: map<(string, string), nat>

    constructor ()
      ensures requestsTotal == map[] && requestsFailures == map[]
    {
      requestsTotal := map[];
      requestsFailures := map[];
    }
  }

  const ProcessedFunction := "ApiRequestProcessed"

  /** A reporter holds the logger it writes through. */
  datatype Reporter = Reporter(log: Log) {

    /** ApiRequestProcessed: one info line, and the operation's request counter grows by one. */
    method ApiRequestProcessed(counters: Counters, operation: string)
      modifies counters, log.sink
      ensures counters.requestsTotal == Inc(old(counters.requestsTotal), operation)
      ensures counters.requestsFailures == old(counters.requestsFailures)
      ensures FailuresWithinTotals(old(counters.requestsTotal), old(counters.requestsFailures)) ==>
              FailuresWithinTotals(counters.requestsTotal, counters.requestsFailures)
      ensures log.sink.entries == old(log.sink.entries)
                + [Entry(InfoLevel, log.fields[FieldFunction := Str(ProcessedFunction)], "Api request has been processed")]
    {
      var l := log.WithField(FieldFunction, Str(ProcessedFunction));
      l.Emit(InfoLevel, "Api request has been processed");
      if FailuresWithinTotals(counters.requestsTotal, counters.requestsFailures) {
        ProcessedKeepsBound(counters.requestsTotal, counters.requestsFailures, operation);
      }
      counters.requestsTotal := Inc(counters.requestsTotal, operation);
    }

    /**
     * ApiRequestFailed: one info line, logged under the function name
     * "ApiRequestProcessed", and both the request counter and the
     * (operation, failure) counter grow by one.
     */
    method ApiRequestFailed(counters: Counters, operation: string, failure: string)
      modifies counters, log.sink
      ensures counters.requestsTotal == Inc(old(counters.requestsTotal), operation)
      ensures counters.requestsFailures == Inc(old(counters.requestsFailures), (operation, failure))
      ensures FailuresWithinTotals(old(counters.requestsTotal), old(counters.requestsFailures)) ==>
              FailuresWithinTotals(counters.requestsTotal, counters.requestsFailures)
      ensures log.sink.entries == old(log.sink.entries)
                + [Entry(InfoLevel, log.fields[FieldFunction := Str(ProcessedFunction)], "Api request processing has failed")]
    {
      var l := log.WithField(FieldFunction, Str(ProcessedFunction));
      l.Emit(InfoLevel, "Api request processing has failed");
      if FailuresWithinTotals(counters.requestsTotal, counters.requestsFailures) {
        FailedKeepsBound(counters.requestsTotal, counters.requestsFailures, operation, failure);
      }
      counters.requestsTotal := Inc(counters.requestsTotal, operation);
      counters.requestsFailures := Inc(counters.requestsFailures, (operation, failure));
    }
  }

  /** NewReporter: a nil logger is refused; otherwise the reporter keeps the logger as given. */
  function NewReporter(log: Option<Log>): (r: Result<Reporter, MetricsError>)
    ensures r.Failure? <==> log.None?
    ensures r.Failure? ==> r.error == ErrNoLoggerProvided
    ensures r.Success? ==> r.value.log == log.value
  {
    match log
    case None => Failure(ErrNoLoggerProvided)
    case Some(l) => Success(Reporter(l))
  }
}
