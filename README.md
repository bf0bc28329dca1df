# zlog in Dafny

zlog is a thin logging facade over zap and lumberjack. This project models its core in Dafny and proves properties of the model. That core covers:

- the pooled `Event` builder, its chained field setters and its terminal calls `Msg`, `Msgf` and `Send`;
- the colored console encoder, which re-renders the last tab-separated segment of a line;
- the `Option` record, its setters and defaults, the writer selection, and the wait arithmetic of daily rotation;
- the `Logger` with its level constructors, context hook, `With` and `Println`/`Printf`;
- the package-level default logger and `Init`.

Modules follow the Go files:

| module | file | form |
|---|---|---|
| `Go` | `go.dfy` | Go values the facade passes through: nullable values, `int64`, time, contexts, errors, `interface{}` |
| `Zap` | `zap.dfy` | engine data (levels, fields, encoders, syncers, lumberjack settings, handles) and `Sink`, the engine as a log of received records |
| `Strings` | `strings.dfy` | `strings.Split`, `strings.Join` and `strings.TrimRight(s, "\n")`, with the split/join round trips |
| `Options` | `option.dfy` | functions over the `Option` record, plus the rotation loop as a method |
| `Encoding` | `encoder.dfy` | `EncodeEntry` as a method with its loop; the rendered text specified by functions |
| `Events` | `event.dfy` | classes `Event` and `Pool` (a free list) |
| `Hooks` | `hook.dfy` | `withCtx` |
| `Loggers` | `logger.dfy` | class `Logger`, with the hook wrapper's loop as a method |
| `Log` | `log.dfy` | class `Globals`, holding the package variable `logger` |

Modelling notes:

- The Go files do not build together as they stand:
  - option.go:90 and encoder.go:64 both declare `newEncoder`;
  - encoder.go:69 reads `opt.Pretty`, but `Option` (option.go:20-30) declares no such field;
  - log.go and hook.go say `package log` while the others say `package zlog`.
- The model keeps both encoders, as `Options.NewEncoder` and `Encoding.NewEncoder`, and gives `Option` an extra `pretty` field.
- `newLogger` (logger.go:81) calls the zero-argument `newEncoder`. A logger built by `New` or `Init` therefore always uses the JSON encoder. The model follows the code here, and `Loggers.NewLoggerIgnoresPretty` states it.
- `newWriter` replaces a negative `MaxSize` by its default and then never uses it: the lumberjack writer always gets `defaultMaxSize` (option.go:108-120). The model does the same.
- The engine is a ghost log, `Zap.Sink.emitted`. Each `Log` call appends one `Entry` holding handle, level, message and fields.
- `sync.Pool` is a free list used by one goroutine at a time. `Get` pops the most recently put event, or allocates one through `Event.New` when the list is empty. The pool invariant, `Events.Pool.Valid`, says every pooled event is blank and no event is pooled twice.
- Daily rotation is modelled on instants in nanoseconds and on zones with fixed UTC offsets.
- The following are function parameters standing for code outside the model:
  - `json.Unmarshal` into a map, which yields either a failure or the map's entries in some order (a Go map has no key twice, but no contract here relies on that);
  - `fmt.Sprintf` and `fmt.Sprintln`;
  - the context hook;
  - the base console encoder's output line.

## Model

| member | source | states |
|---|---|---|
| Strings.Split | encoder.go:25 | `strings.Split` never yields zero pieces, and no piece contains the separator |
| Strings.TrimRightNewlines | logger.go:39 | the result is a prefix of the input with no trailing `\n`, and only `\n` characters were removed |
| Strings.Join | encoder.go:59 | `strings.Join`: empty for no segments, otherwise it starts with the first segment, followed by the separator when more segments follow |
| Strings.JoinSplit | encoder.go:25-59 | joining the pieces of a split with the same separator gives back the line |
| Strings.SplitPrefix | encoder.go:25 | a separator-free piece followed by the separator splits off as the first segment |
| Strings.SplitNoSeparator | encoder.go:25-28 | a string without the separator splits into exactly itself |
| Strings.SplitJoin | encoder.go:56-59 | splitting a join of separator-free segments gives back the segments |
| Options.Option.SetDir | option.go:45-48 | the copy has `dir` set, and every other field equals the receiver's |
| Options.Option.SetFilename | option.go:50-53 | the copy has `filename` set, and every other field equals the receiver's |
| Options.Option.SetSkipLevel | option.go:55-58 | the copy has `skipLevel` set, and every other field equals the receiver's |
| Options.Option.SetTimezone | option.go:60-63 | the copy has `timezone` set, and every other field equals the receiver's |
| Options.Option.SetMaxSize | option.go:65-68 | the copy has `maxSize` set, and every other field equals the receiver's |
| Options.Option.SetMaxAge | option.go:70-73 | the copy has `maxAge` set, and every other field equals the receiver's |
| Options.Option.SetWriter | option.go:75-78 | the copy has `writer` set, and every other field equals the receiver's |
| Options.Option.SetDailyRotation | option.go:80-83 | the copy has `dailyRotation` set, and every other field equals the receiver's |
| Options.Option.SetDisableConsole | option.go:85-88 | the copy has `disableConsole` set, and every other field equals the receiver's |
| Options.DefaultOption | option.go:14-43 | skip level 1, max size 20, max age 15, standard output, the loaded zone, no file, console on, no rotation; the zone is only ever nil or Asia/Shanghai, the two outcomes of loading it |
| Options.ConsoleOutput | option.go:98-102 | a nil writer means standard output; otherwise the writer is used |
| Options.Normalised | option.go:108-114 | negative size and age become 20 and 15; zero and positive values are kept; nothing else changes |
| Options.NewEncoder | option.go:90-95 | the zero-argument encoder is JSON, with ISO-8601 times and capital level names |
| Options.NewWriter | option.go:97-148 | exactly one syncer, except two when a file name is set and the console is not disabled; without a file name, console only and no rotation; with one, a lumberjack writer on dir and name with size limit 20 and the normalised age, preceded by the console unless it is disabled; the rotation loop starts iff a file name is set and daily rotation is on |
| Options.DefaultIsConsoleOnly | option.go:32-43 | the default options give exactly one console syncer on standard output and no rotation |
| Options.DefaultWithFile | option.go:104-147 | defaults plus a file name give console then file, with limits 20 and 15 |
| Options.RotationWait | option.go:132-133 | the wait ends 1 ns before the next instant, and is non-negative and shorter than the gap when that instant is ahead |
| Options.NextRotationAsWritten | option.go:125-130 | the instant as written is a midnight of `Timezone`: the first one after now shifted by (process-zone offset minus `Timezone` offset), i.e. the day after the process-local date of now, read as a date in `Timezone` |
| Options.NextRotation | option.go:125-133 | the corrected instant is the first midnight of `Timezone` strictly after now, at most one day later |
| Options.NextRotationIsNextMidnight | option.go:125-133 | the intended next instant is a midnight of the configured zone, at most a day after now and strictly after it; the wait lies in [0, one day) |
| Options.AsWrittenInOwnZone | option.go:125-130 | when the process runs in the configured zone, the code as written computes the intended instant |
| Options.AsWrittenWaitNegative | option.go:125-135 | a process zone behind the configured one, late in its own day, gets a negative wait |
| Options.AsWrittenSkipsMidnight | option.go:125-135 | a process zone ahead of the configured one, early in its own day, skips the configured zone's next midnight and waits a day or more |
| Options.AsWrittenShanghaiFromUtc | option.go:125-133 | at 20:00 UTC with the process in UTC and the option set to UTC+8, the wait is -4 h - 1 ns as written and 20 h - 1 ns as intended |
| Options.RotationLoop | option.go:122-139 | one timer per clock reading; with the corrected next instant every timer fires 1 ns before a midnight of the configured zone, less than a day after it was armed |
| Encoding.FieldSegment | encoder.go:40-54 | the rebuilt segment starts with `{`, ends with `}\n`, and is `{}\n` for an empty object |
| Encoding.Recoloured | encoder.go:33-37 | on a parse failure the line comes back unchanged |
| Encoding.EncodeEntry | encoder.go:22-62 | the error is always nil, and the buffer is the line with its last segment rebuilt from the parse of that segment (the line itself if the parse fails) |
| Encoding.ProgressComplete | encoder.go:39-53 | after i rounds the loop holds the first i entries joined, plus `, ` if more follow |
| Encoding.NewEncoder | encoder.go:64-75 | colored console with the color level encoder iff pretty, else JSON with capital levels; ISO-8601 time either way |
| Encoding.PlainEncoderIsNotPretty | option.go:90-95 | the zero-argument encoder is the selection with pretty off |
| Encoding.ColourLayout | encoder.go:42-47 | the value of `error` is framed by the red escape before and the reset escape after; any other value is left as it is |
| Encoding.RenderPairLayout | encoder.go:43-46 | one entry is the quoted key, then `: `, then the quoted value as coloured |
| Encoding.Joined | encoder.go:41-53 | the entries joined are empty iff there are no entries, and otherwise start with the first entry |
| Encoding.JoinedSnoc | encoder.go:41-53 | one more entry adds `, ` and that entry, with no separator before the first |
| Encoding.JoinedLength | encoder.go:49-51 | n entries carry exactly n-1 two-character separators |
| Encoding.JoinedEndsWithLastEntry | encoder.go:49-54 | the joined entries end with the last entry, not a separator |
| Encoding.JoinedContainsEntry | encoder.go:41-53 | every parsed entry's `"k": "v"` rendering occurs in the joined entries |
| Encoding.ErrorEntryIsRed | encoder.go:14-15 | the value of `error` sits between the red escape and the reset escape |
| Encoding.OtherEntryIsPlain | encoder.go:45-47 | any other entry contains an escape character only if its key or value did |
| Encoding.RecolouredReplacesLastSegment | encoder.go:30-59 | on success the output is the line up to and including its last tab, then the rebuilt segment |
| Encoding.RecolouredSegments | encoder.go:56-59 | when the rebuilt segment has no tab, the output's segments are the input's with the last replaced |
| Encoding.TablessLineIsAllFields | encoder.go:25-31 | a line without a tab is parsed whole and replaced whole |
| Encoding.RecolouredHighlightsError | encoder.go:42-59 | an `error` entry shows up in the output wrapped in red and reset |
| Events.Grow | event.go:30 | a full slice grows to a strictly larger capacity |
| Events.Event.New | event.go:17-21 | a new pool object is blank, with capacity 4 |
| Events.Event.Append | event.go:30 | exactly one field is appended at the end; handle and level are kept; capacity is kept while there is room |
| Events.Event.Int | event.go:29-32 | appends `zap.Int(key, val)` and returns the same event; capacity is kept while the slice has room |
| Events.Event.Int64 | event.go:34-37 | appends `zap.Int64(key, val)` and returns the same event; capacity is kept while the slice has room |
| Events.Event.Float64 | event.go:39-42 | appends `zap.Float64(key, val)` and returns the same event; capacity is kept while the slice has room |
| Events.Event.Bool | event.go:44-47 | appends `zap.Bool(key, val)` and returns the same event; capacity is kept while the slice has room |
| Events.Event.Str | event.go:49-52 | appends `zap.String(key, val)` and returns the same event; capacity is kept while the slice has room |
| Events.Event.Time | event.go:54-57 | appends `zap.Time(key, val)` and returns the same event; capacity is kept while the slice has room |
| Events.Event.Err | event.go:59-62 | appends `zap.Error(err)`: key `error`, or the skip field for a nil error; capacity is kept while the slice has room |
| Events.Event.Any | event.go:64-67 | appends `zap.Any(key, val)` and returns the same event; capacity is kept while the slice has room |
| Events.Event.Msg | event.go:69-72 | exactly one record (handle, level, msg, fields in order) reaches the engine, then the event is blank and back in the pool with its capacity kept |
| Events.Event.Msgf | event.go:74-77 | the same as Msg, with the formatted message |
| Events.Event.Send | event.go:79-82 | the same as Msg, with the empty message |
| Events.Pool.constructor | event.go:17 | the pool starts empty and valid |
| Events.Pool.Get | event.go:17-21 | the last pooled event, or a new blank one with capacity 4 when the pool is empty; either way blank and no longer pooled |
| Events.Pool.Put | event.go:95 | the blank event is added and the invariant kept |
| Events.NewEvent | event.go:84-90 | the event is bound to exactly the given handle and level and has no fields; it is the last pooled event, with the capacity it was pooled with, or a new one with capacity 4 when the pool is empty; the other pooled events stay pooled and are untouched |
| Events.PutEvent | event.go:92-96 | nil handle, zero fields, capacity kept, event pooled |
| Events.AcquireAfterRelease | event.go:17-96 | after an event with any number of fields is sent and released, the next acquire has no fields and the new handle and level |
| Hooks.WithCtx | hook.go:9-15 | nil iff the list is empty or its first element is nil; otherwise the first element |
| Hooks.WithCtxIgnoresRest | hook.go:14 | contexts after the first are ignored |
| Loggers.HookFields | logger.go:51-60 | one `zap.Any` field per map entry, each key once, every key present |
| Loggers.NewLogger | logger.go:79-89 | minimum level Info, caller on, caller skip `opt.SkipLevel`, newWriter's syncers, the JSON encoder, no context fields |
| Loggers.NewLoggerIgnoresPretty | logger.go:81 | the `pretty` option does not change the logger New builds |
| Loggers.Logger.New | logger.go:91-93 | the logger holds the engine for opt and opt verbatim, without a hook |
| Loggers.Logger.Literal | logger.go:47 | the struct literal: given handle and options, no hook |
| Loggers.Logger.NewEvent | logger.go:69-77 | the event is bound to this logger's handle and the level; its fields are exactly the hook's when a context and a hook are both present, and none otherwise; the event is the last pooled one or a new one, its capacity is the pooled one (4 for a new event) unless hook fields replaced the slice, and the other pooled events stay pooled and untouched |
| Loggers.Logger.Debug | logger.go:18-20 | an event at Debug for the first context given, taken from the pool as for `Loggers.Logger.NewEvent` |
| Loggers.Logger.Info | logger.go:22-24 | an event at Info for the first context given, taken from the pool as for `Loggers.Logger.NewEvent` |
| Loggers.Logger.Warn | logger.go:26-28 | an event at Warn for the first context given, taken from the pool as for `Loggers.Logger.NewEvent` |
| Loggers.Logger.Error | logger.go:30-32 | an event at Error for the first context given, taken from the pool as for `Loggers.Logger.NewEvent` |
| Loggers.Logger.Fatal | logger.go:34-36 | an event at Fatal for the first context given, taken from the pool as for `Loggers.Logger.NewEvent` |
| Loggers.Logger.Println | logger.go:38-40 | one Info record with the Sprintln text minus trailing newlines, and no fields (no hook fields, since the context is nil); the event taken from the pool goes back on top with its capacity (a new one only when the pool was empty), and the events below it are untouched |
| Loggers.Logger.Printf | logger.go:42-44 | one Info record, no fields, message formatted with the argument slice as one argument; the event taken from the pool goes back on top with its capacity (a new one only when the pool was empty), and the events below it are untouched |
| Loggers.Logger.With | logger.go:46-48 | a new logger on the handle extended by one field, same options, no hook; the receiver is untouched |
| Loggers.Logger.AddCtxHook | logger.go:50-63 | installs the hook on the receiver and returns the receiver; handle and options are kept |
| Loggers.HookedSend | logger.go:50-77 | with a hook installed, a bare Send from a context-carrying Info event emits an empty message carrying exactly the hook's fields |
| Log.Globals.constructor | log.go:9 | the default logger is `New(DefaultOption())` |
| Log.Globals.Debug | log.go:11-13 | an event at Debug from the current default logger, taken from the pool as for `Loggers.Logger.NewEvent` |
| Log.Globals.Info | log.go:15-17 | an event at Info from the current default logger, taken from the pool as for `Loggers.Logger.NewEvent` |
| Log.Globals.Warn | log.go:19-21 | an event at Warn from the current default logger, taken from the pool as for `Loggers.Logger.NewEvent` |
| Log.Globals.Error | log.go:23-25 | an event at Error from the current default logger, taken from the pool as for `Loggers.Logger.NewEvent` |
| Log.Globals.Fatal | log.go:27-29 | an event at Fatal from the current default logger, taken from the pool as for `Loggers.Logger.NewEvent` |
| Log.Globals.Println | log.go:31-33 | the default logger's Println record; the event taken from the pool goes back on top with its capacity (a new one only when the pool was empty), and the events below it are untouched |
| Log.Globals.Printf | log.go:35-37 | the default logger's Printf record; the event taken from the pool goes back on top with its capacity (a new one only when the pool was empty), and the events below it are untouched |
| Log.Globals.With | log.go:39-41 | a fresh child of the default logger; the default stays in place |
| Log.Globals.AddCtxHook | log.go:43-45 | mutates and returns the default logger itself |
| Log.Globals.Init | log.go:51-53 | the default becomes a fresh logger for opt, without a hook |
| Log.InitDropsHook | log.go:43-53 | a hook added before Init is gone: a later event built with a context has no fields and uses the new engine |

## Left out

- The zap engine: line layout, level filtering, caller capture, Fatal's process exit, and what happens to a record after `Log`. Each record is only appended to `Zap.Sink.emitted`.
- `Sync` (logger.go:65-67, log.go:47-49): it only forwards to zap's flush, which is not part of this model.
- The base console encoder and its discarded error (encoder.go:23): its output line is an input of `Encoding.EncodeEntry`.
- `json.Unmarshal`, the `%v` rendering of values, `fmt.Sprintf` and `fmt.Sprintln`: these are function parameters. Go's map iteration order is an arbitrary sequence of the map's entries.
- The `fmt.Println` debug prints at encoder.go:35 and encoder.go:44: they are console output only.
- `sync.Pool` concurrency and garbage-collection eviction. The pool is used by one goroutine, and a pooled event is never dropped.
- `Events.Grow`: it does not model Go's size-class rounding of slice capacity, only that capacity grows.
- The rotation goroutine's concurrency, `time.Now`, `time.After`, `time.LoadLocation`, and lumberjack's file I/O and `Rotate`.
  - Clock readings and zone offsets are parameters.
  - Loading Asia/Shanghai is the parameter `shanghai`.
- Options.RotationLoop: it runs a given finite number of cycles, where the source loops forever. It also uses the corrected next instant of the Findings table, not the one as written.
- Daylight-saving zones: zones are fixed offsets.
- A nil `Timezone`: zone offsets are parameters, so the model has no nil zone. As the code reads, `DefaultOption` keeps a nil zone when Asia/Shanghai cannot be loaded (option.go:34), and `time.ParseInLocation` with a nil location (option.go:128) reaches `time.Date`, which panics on a nil location; the panic would happen in the rotation goroutine and end the process.
- `filepath.Join` path cleaning: the lumberjack settings keep dir and name separately.
- A nil function passed to `AddCtxHook`: the wrapper would call it and fail at the first hooked event. The model does not represent nil hook functions.
- Integer widths beyond the `int64` range of `Go.Int64`: the nanosecond arithmetic is unbounded. The instants involved are far from the `int64` limits.
- Races between `Init` and calls in flight on other goroutines.

## Findings

| source | as written | input that shows it | evidently intended | confidence | as-written member | corrected member |
|---|---|---|---|---|---|---|
| option.go:125-133 | the date of `now` is taken in the process's local zone (`now.Format`), then parsed as midnight in `opt.Timezone` | process zone UTC, `Timezone` UTC+8, now = 1970-01-01 20:00 UTC: the next instant is 1970-01-01 16:00 UTC, 4 h in the past, the wait is negative, and the timer fires at once on every cycle until the local date changes | the date is taken in `opt.Timezone` too, so the timer fires 1 ns before the configured zone's next midnight, 0 to 24 h ahead | not executed | Options.AsWrittenWaitNegative | Options.NextRotationIsNextMidnight |
