/**
 * The parts of the structured-logging engine (zap) and of the rotating
 * file writer (lumberjack) that the facade configures or calls. They are
 * data only: what the engine does with a record is not modelled, the
 * engine just receives it.
 */
module Zap {
  import Go

  /** zapcore's severity levels used by the facade, lowest first. */
  datatype Level = DebugLevel | InfoLevel | WarnLevel | ErrorLevel | FatalLevel

  /** The typed payload of a field. `Skip` is what zap makes of a nil error. */
  datatype FieldValue =
    | Int64Value(i: Go.Int64)
    | Float64Value(f: Go.Float64)
    | BoolValue(b: bool)
    | StringValue(s: string)
    | TimeValue(t: Go.Time)
    | ErrorValue(err: Go.Error)
    | AnyValue(v: Go.Dynamic)
    | Skip

  datatype Field = Field(key: string, value: FieldValue)

  // zap's field constructors. zap stores a Go `int` as an int64 field, and
  // zap.Error of a nil error yields the key-less Skip field.
  function Int(key: string, val: Go.Int64): Field { Field(key, Int64Value(val)) }
  function Int64(key: string, val: Go.Int64): Field { Field(key, Int64Value(val)) }
  function Float64(key: string, val: Go.Float64): Field { Field(key, Float64Value(val)) }
  function Bool(key: string, val: bool): Field { Field(key, BoolValue(val)) }
  function String(key: string, val: string): Field { Field(key, StringValue(val)) }
  function Time(key: string, val: Go.Time): Field { Field(key, TimeValue(val)) }
  function Any(key: string, val: Go.Dynamic): Field { Field(key, AnyValue(val)) }
  function NamedError(err: Go.Nullable<Go.Error>): Field {
    match err
    case Nil => Field("", Skip)
    case Some(e) => Field("error", ErrorValue(e))
  }

  /** How an encoder renders time stamps and level names. */
  datatype TimeEncoder = ISO8601TimeEncoder
  datatype LevelEncoder = CapitalLevelEncoder | CapitalColorLevelEncoder

  /** The production encoder configuration with the two settings the facade overrides. */
  datatype EncoderConfig = EncoderConfig(encodeTime: TimeEncoder, encodeLevel: LevelEncoder)

  /** An encoder value; `ColoredConsole` is the facade's wrapper around a base encoder. */
  datatype Encoder =
    | JSONEncoder(config: EncoderConfig)
    | ConsoleEncoder(config: EncoderConfig)
    | ColoredConsole(base: Encoder)

  /** lumberjack.Logger: the file path is filepath.Join(dir, filename). */
  datatype Lumberjack = Lumberjack(dir: string, filename: string, maxSize: int, maxAge: int)

  /** One member of a multi-write syncer. */
  datatype Syncer = ConsoleSyncer(out: Go.Output) | FileSyncer(file: Lumberjack)

  /** A zapcore.Core: encoder, write syncers and minimum enabled level. */
  datatype Core = Core(encoder: Encoder, syncers: seq<Syncer>, minLevel: Level)

  /** A *zap.Logger: its core, caller options and the fields added by With. */
  datatype Handle = Handle(core: Core, addCaller: bool, callerSkip: int, context: seq<Field>)

  /** zap.Logger.With: a new handle on the same core with one more context field. */
  function With(h: Handle, f: Field): Handle {
    h.(context := h.context + [f])
  }

  /** What the engine receives from one call of Log. */
  datatype Entry = Entry(logger: Handle, level: Level, message: string, fields: seq<Field>)

  /** The engine seen from the facade: the log of records submitted to it. */
  class Sink {
    ghost var emitted: seq<Entry>

    constructor ()
      ensures emitted == []
    {
      emitted := [];
    }

    /** zap.Logger.Log: submit one record. */
    method Log(h: Handle, level: Level, msg: string, fields: seq<Field>)
      modifies this
      ensures emitted == old(emitted) + [Entry(h, level, msg, fields)]
    {
      emitted := emitted + [Entry(h, level, msg, fields)];
    }
  }
}
