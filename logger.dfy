/**
 * The structured logger of internal/pkg/logger/logger.go.
 *
 * A `Log` is a value: its configuration, the shared logrus sink it writes
 * to, and its persisted field map. Deriving a child (`WithFields`,
 * `WithField`) builds a new value and never touches the parent; emitting
 * hands one `Entry` (level, field map, message) to the sink.
 */
module Logger {
  import opened Wrappers

  const FieldNode := "node"
  const FieldService := "service"
  const FieldPackage := "package"
  const FieldFunction := "function"
  const FieldError := "error"
  const FieldCorrelation := "correlationId"

  /** A field value (Go's interface{}), restricted to what this service stores in fields. */
  datatype Value = Str(s: string) | ErrorValue(message: string) | Nil

  /** Field name to value; Go's map makes insertion order irrelevant. */
  type Fields = map<string, Value>

  /** logrus levels, most severe first. */
  datatype Level = PanicLevel | FatalLevel | ErrorLevel | WarnLevel | InfoLevel | DebugLevel | TraceLevel

  datatype Formatter = TextFormatter | JsonFormatter

  /** Config.Level and Config.Formatter as the configuration file gives them. */
  datatype Config = Config(level: string, formatter: string)

  /** Level parsing fails with the string it could not parse. */
  datatype ConfigError = InvalidLevel(level: string)

  /** One record handed to the sink. */
  datatype Entry = Entry(level: Level, fields: Fields, message: string)

  /**
   * The logrus.Logger shared by a logger and all loggers derived from it:
   * its formatter, its level and the records handed to it so far.
   */
  class Sink {
    var formatter: Formatter
    var level: Level
    var entries: seq<Entry>

    /** logrus.New(): text formatter, info level, nothing written. */
    constructor ()
      ensures formatter == TextFormatter && level == InfoLevel && entries == []
    {
      formatter := TextFormatter;
      level := InfoLevel;
      entries := [];
    }
  }

  /**
   * The merge behind combineFields: the keys of both maps, and on a clash
   * the value of `extra` wins.
   */
  function Combined(base: Fields, extra: Fields): (r: Fields)
    ensures r.Keys == base.Keys + extra.Keys
    ensures forall k :: k in extra ==> r[k] == extra[k]
    ensures forall k :: k in base && k !in extra ==> r[k] == base[k]
  {
    map k | k in base.Keys + extra.Keys :: if k in extra then extra[k] else base[k]
  }

  /** Combined agrees with Dafny's own right-biased map union. */
  lemma CombinedIsUnion(base: Fields, extra: Fields)
    ensures Combined(base, extra) == base + extra
  {
  }

  /** Merging in two steps is merging once with the merged overlay. */
  lemma CombinedAssociative(base: Fields, a: Fields, b: Fields)
    ensures Combined(Combined(base, a), b) == Combined(base, Combined(a, b))
  {
    var lhs := Combined(Combined(base, a), b);
    var rhs := Combined(base, Combined(a, b));
    assert lhs.Keys == rhs.Keys;
    forall k | k in lhs.Keys
      ensures lhs[k] == rhs[k]
    {
    }
  }

  /** The field set the Error variants emit: the persisted fields with "error" set to `err`. */
  function ErrorFields(base: Fields, err: Value): (r: Fields)
    ensures r.Keys == base.Keys + {FieldError}
    ensures r[FieldError] == err
    ensures forall k :: k in base && k != FieldError ==> r[k] == base[k]
  {
    Combined(base, map[FieldError := err])
  }

  /**
   * The field set the ErrorWithFields variants emit: the extras merged in,
   * then "error" set to `err`, so `err` wins even over an "error" extra.
   */
  function ErrorFieldsWith(base: Fields, extra: Fields, err: Value): (r: Fields)
    ensures r.Keys == base.Keys + extra.Keys + {FieldError}
    ensures r[FieldError] == err
    ensures forall k :: k in extra && k != FieldError ==> r[k] == extra[k]
    ensures forall k :: k in base && k !in extra && k != FieldError ==> r[k] == base[k]
  {
    Combined(base, extra)[FieldError := err]
  }

  /** Error is ErrorWithFields with no extras. */
  lemma ErrorFieldsNoExtras(base: Fields, err: Value)
    ensures ErrorFields(base, err) == ErrorFieldsWith(base, map[], err)
  {
  }

  /** A logger: configuration, shared sink, persisted fields. */
  datatype Log = Log(config: Config, sink: Sink, fields: Fields) {

    /**
     * A child logger with `extra` merged into the fields; it shares the
     * sink. Like the source, the child does not copy the parent's config.
     */
    function WithFields(extra: Fields): (child: Log)
      ensures child.sink == sink && child.config == Config("", "")
      ensures child.fields.Keys == fields.Keys + extra.Keys
      ensures forall k :: k in extra ==> child.fields[k] == extra[k]
      ensures forall k :: k in fields && k !in extra ==> child.fields[k] == fields[k]
    {
      Log(Config("", ""), sink, Combined(fields, extra))
    }

    /** A child logger with one field set, overriding any persisted value. */
    function WithField(field: string, value: Value): (child: Log)
      ensures child.sink == sink
      ensures child.fields == fields[field := value]
    {
      WithFields(map[field := value])
    }

    /**
     * combineFields: a fresh map filled first from the persisted fields,
     * then from `extra`; the persisted fields are only read.
     */
    method CombineFields(extra: Fields) returns (combined: Fields)
      ensures combined == Combined(fields, extra)
    {
      combined := map[];
      var rest := fields.Keys;
      while rest != {}
        invariant rest <= fields.Keys
        invariant combined.Keys == fields.Keys - rest
        invariant forall k :: k in combined ==> combined[k] == fields[k]
        decreases rest
      {
        var k :| k in rest;
        combined := combined[k := fields[k]];
        rest := rest - {k};
      }
      rest := extra.Keys;
      while rest != {}
        invariant rest <= extra.Keys
        invariant combined.Keys == fields.Keys + (extra.Keys - rest)
        invariant forall k :: k in extra && k !in rest ==> combined[k] == extra[k]
        invariant forall k :: k in fields && (k !in extra || k in rest) ==> combined[k] == fields[k]
        decreases rest
      {
        var k :| k in rest;
        combined := combined[k := extra[k]];
        rest := rest - {k};
      }
    }

    /**
     * Trace, Debug, Info, Warn, Fatal, Panic and their `f` forms: the
     * persisted fields go to the sink unchanged.
     */
    method Emit(level: Level, message: string)
      requires level != ErrorLevel
      modifies sink
      ensures sink.entries == old(sink.entries) + [Entry(level, fields, message)]
      ensures sink.formatter == old(sink.formatter) && sink.level == old(sink.level)
    {
      sink.entries := sink.entries + [Entry(level, fields, message)];
    }

    /** The *WithFields forms: the merged map goes to the sink and is not stored. */
    method EmitWithFields(level: Level, extra: Fields, message: string)
      requires level != ErrorLevel
      modifies sink
      ensures sink.entries == old(sink.entries) + [Entry(level, Combined(fields, extra), message)]
      ensures sink.formatter == old(sink.formatter) && sink.level == old(sink.level)
    {
      var combined := CombineFields(extra);
      sink.entries := sink.entries + [Entry(level, combined, message)];
    }

    /** The record Error and Errorf hand to the sink. */
    function ErrorEntry(err: Value, message: string): Entry
    {
      Entry(ErrorLevel, ErrorFields(fields, err), message)
    }

    /** Error and Errorf. */
    method Error(err: Value, message: string)
      modifies sink
      ensures sink.entries == old(sink.entries) + [ErrorEntry(err, message)]
      ensures sink.formatter == old(sink.formatter) && sink.level == old(sink.level)
    {
      var combined := CombineFields(map[FieldError := err]);
      sink.entries := sink.entries + [Entry(ErrorLevel, combined, message)];
    }

    /** ErrorWithFields and ErrorfWithFields: "error" is written after the merge. */
    method ErrorWithFields(err: Value, extra: Fields, message: string)
      modifies sink
      ensures sink.entries == old(sink.entries) + [Entry(ErrorLevel, ErrorFieldsWith(fields, extra, err), message)]
      ensures sink.formatter == old(sink.formatter) && sink.level == old(sink.level)
    {
      var combined := CombineFields(extra);
      combined := combined[FieldError := err];
      sink.entries := sink.entries + [Entry(ErrorLevel, combined, message)];
    }
  }

  /** Deriving twice keeps the later value on every shared key. */
  lemma WithFieldsTwice(l: Log, a: Fields, b: Fields)
    ensures l.WithFields(a).WithFields(b) == l.WithFields(Combined(a, b))
  {
    CombinedAssociative(l.fields, a, b);
  }

  /** WithField(k, v) is WithFields({k: v}). */
  lemma WithFieldIsWithFields(l: Log, field: string, value: Value)
    ensures l.WithField(field, value) == l.WithFields(map[field := value])
  {
  }

  /**
   * getFormatter: "text" gives the text formatter, "json" and every other
   * name give JSON; it never fails.
   */
  function GetFormatter(name: string): (r: Result<Formatter, ConfigError>)
    ensures r.Success?
    ensures r.value == TextFormatter <==> name == "text"
  {
    match name
    case "text" => Success(TextFormatter)
    case "json" => Success(JsonFormatter)
    case _ => Success(JsonFormatter)
  }

  /**
   * applyConfig on the sink: the formatter is set first, then the level if
   * it parses; an unparsable level is the only failure.
   */
  method ApplyConfig(sink: Sink, config: Config, parseLevel: string -> Option<Level>)
    returns (err: Option<ConfigError>)
    modifies sink
    ensures sink.formatter == GetFormatter(config.formatter).value
    ensures err.None? <==> parseLevel(config.level).Some?
    ensures err.None? ==> sink.level == parseLevel(config.level).value
    ensures err.Some? ==> err.value == InvalidLevel(config.level) && sink.level == old(sink.level)
    ensures sink.entries == old(sink.entries)
  {
    // getFormatter never fails, so its error return is never taken
    var formatter := GetFormatter(config.formatter).value;
    sink.formatter := formatter;
    var level := parseLevel(config.level);
    if level.None? {
      return Some(InvalidLevel(config.level));
    }
    sink.level := level.value;
    return None;
  }

  /** New: a logger with no fields over a fresh sink, or the configuration error. */
  method New(config: Config, parseLevel: string -> Option<Level>) returns (r: Result<Log, ConfigError>)
    ensures r.Success? <==> parseLevel(config.level).Some?
    ensures r.Failure? ==> r.error == InvalidLevel(config.level)
    ensures r.Success? ==> && fresh(r.value.sink)
                           && r.value.config == config
                           && r.value.fields == map[]
                           && r.value.sink.formatter == GetFormatter(config.formatter).value
                           && r.value.sink.level == parseLevel(config.level).value
                           && r.value.sink.entries == []
  {
    var sink := new Sink();
    var err := ApplyConfig(sink, config, parseLevel);
    if err.Some? {
      return Failure(err.value);
    }
    return Success(Log(config, sink, map[]));
  }
}
