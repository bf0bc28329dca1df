/**
 * The logger facade (logger.go): a Logger holds an engine handle, its
 * configuration and an optional context hook, and hands out pooled events
 * at each severity level.
 */
module Loggers {
  import Go
  import Zap
  import Options
  import Events
  import Hooks
  import Strings

  /**
   * `fs` holds one zap.Any field for each key of `keys`, taken from `data`,
   * in some order and no key twice.
   */
  ghost predicate FieldsFor(fs: seq<Zap.Field>, data: map<string, Go.Dynamic>, keys: set<string>) {
    && |fs| == |keys|
    && (forall i :: 0 <= i < |fs| ==>
          fs[i].key in keys && fs[i].key in data && fs[i] == Zap.Any(fs[i].key, data[fs[i].key]))
    && (forall i, j :: 0 <= i < j < |fs| ==> fs[i].key != fs[j].key)
    && keys <= KeysOf(fs)
  }

  /** The keys of a field list. */
  ghost function KeysOf(fs: seq<Zap.Field>): set<string> {
    if |fs| == 0 then {} else KeysOf(fs[..|fs| - 1]) + {fs[|fs| - 1].key}
  }

  /** What the hook wrapper makes of a hook's map: one field per entry. */
  ghost predicate FieldsOf(fs: seq<Zap.Field>, data: map<string, Go.Dynamic>) {
    FieldsFor(fs, data, data.Keys)
  }

  /** One round of the wrapper's loop: appending the field of a key not yet taken. */
  lemma FieldsForSnoc(fs: seq<Zap.Field>, data: map<string, Go.Dynamic>, keys: set<string>, k: string)
    requires FieldsFor(fs, data, keys) && k in data && k !in keys
    ensures FieldsFor(fs + [Zap.Any(k, data[k])], data, keys + {k})
  {
  }

  /**
   * The loop of the wrapper AddCtxHook installs: one field per map entry,
   * visited in Go's unspecified map order (here: any order).
   */
  method HookFields(data: map<string, Go.Dynamic>) returns (fields: seq<Zap.Field>)
    ensures FieldsOf(fields, data)
  {
    fields := [];
    var rest := data.Keys;
    ghost var done: set<string> := {};
    while rest != {}
      invariant done + rest == data.Keys && done !! rest
      invariant FieldsFor(fields, data, done)
      decreases rest
    {
      var k :| k in rest;
      FieldsForSnoc(fields, data, done, k);
      fields := fields + [Zap.Any(k, data[k])];
      rest := rest - {k};
      done := done + {k};
    }
  }

  /**
   * newLogger: a core with the zero-argument (JSON) encoder, newWriter's
   * syncers and minimum level Info, caller reporting on, skipping
   * opt.SkipLevel frames. `pretty` has no effect on it.
   */
  function NewLogger(opt: Options.Option): (h: Zap.Handle)
    ensures h.core.minLevel == Zap.InfoLevel && h.addCaller && h.callerSkip == opt.skipLevel
    ensures h.core.syncers == Options.NewWriter(opt).syncers
    ensures h.core.encoder.JSONEncoder? && h.core.encoder == Options.NewEncoder()
    ensures h.context == []
  {
    Zap.Handle(Zap.Core(Options.NewEncoder(), Options.NewWriter(opt).syncers, Zap.InfoLevel), true, opt.skipLevel, [])
  }

  /** The `pretty` option does not reach the logger New builds. */
  lemma NewLoggerIgnoresPretty(opt: Options.Option)
    ensures NewLogger(opt.(pretty := !opt.pretty)) == NewLogger(opt)
  {
  }

  class Logger {
    var lg: Zap.Handle
    var opt: Options.Option
    var ctxHook: Go.Nullable<Hooks.CtxHook>

    /** New: a logger on a new engine for opt, storing opt as given, with no hook. */
    constructor New(opt: Options.Option)
      ensures lg == NewLogger(opt) && this.opt == opt && ctxHook.Nil?
    {
      lg := NewLogger(opt);
      this.opt := opt;
      ctxHook := Go.Nil;
    }

    /** The struct literal `&Logger{lg: lg, opt: opt}`: no hook. */
    constructor Literal(lg: Zap.Handle, opt: Options.Option)
      ensures this.lg == lg && this.opt == opt && ctxHook.Nil?
    {
      this.lg := lg;
      this.opt := opt;
      ctxHook := Go.Nil;
    }

    /** The fields newEvent starts an event with for context ctx: the hook's when both are set, else none. */
    ghost predicate HookedFields(ctx: Go.Nullable<Go.Context>, fs: seq<Zap.Field>)
      reads this
    {
      if ctx.Some? && ctxHook.Some? then FieldsOf(fs, ctxHook.value(ctx.value)) else fs == []
    }

    /**
     * newEvent: a pooled event bound to this logger's engine and `level`,
     * whose fields are replaced by the hook's when a context and a hook are
     * both present.
     */
    method NewEvent(ctx: Go.Nullable<Go.Context>, level: Zap.Level, pool: Events.Pool)
      returns (e: Events.Event)
      requires pool.Valid()
      modifies pool, pool.free
      ensures pool.Valid() && e.Valid() && e !in pool.free
      ensures e.lg == Go.Some(lg) && e.level == level && HookedFields(ctx, e.fields)
      ensures Events.Acquired(pool, e)
      ensures e.capacity == if ctx.Some? && ctxHook.Some? then |e.fields| else old(Events.NextCapacity(pool.free))
    {
      e := Events.NewEvent(ctx, lg, level, pool);
      if ctx.Some? && ctxHook.Some? {
        var fs := HookFields(ctxHook.value(ctx.value));
        e.fields := fs;
        e.capacity := |fs|;
      }
    }

    // The level constructors: an event at the matching level for the first context passed.

    method Debug(ctx: seq<Go.Nullable<Go.Context>>, pool: Events.Pool) returns (e: Events.Event)
      requires pool.Valid()
      modifies pool, pool.free
      ensures pool.Valid() && e.Valid() && e !in pool.free
      ensures e.lg == Go.Some(lg) && e.level == Zap.DebugLevel && HookedFields(Hooks.WithCtx(ctx), e.fields)
      ensures Events.Acquired(pool, e)
      ensures e.capacity == if Hooks.WithCtx(ctx).Some? && ctxHook.Some? then |e.fields| else old(Events.NextCapacity(pool.free))
    {
      e := NewEvent(Hooks.WithCtx(ctx), Zap.DebugLevel, pool);
    }

    method Info(ctx: seq<Go.Nullable<Go.Context>>, pool: Events.Pool) returns (e: Events.Event)
      requires pool.Valid()
      modifies pool, pool.free
      ensures pool.Valid() && e.Valid() && e !in pool.free
      ensures e.lg == Go.Some(lg) && e.level == Zap.InfoLevel && HookedFields(Hooks.WithCtx(ctx), e.fields)
      ensures Events.Acquired(pool, e)
      ensures e.capacity == if Hooks.WithCtx(ctx).Some? && ctxHook.Some? then |e.fields| else old(Events.NextCapacity(pool.free))
    {
      e := NewEvent(Hooks.WithCtx(ctx), Zap.InfoLevel, pool);
    }

    method Warn(ctx: seq<Go.Nullable<Go.Context>>, pool: Events.Pool) returns (e: Events.Event)
      requires pool.Valid()
      modifies pool, pool.free
      ensures pool.Valid() && e.Valid() && e !in pool.free
      ensures e.lg == Go.Some(lg) && e.level == Zap.WarnLevel && HookedFields(Hooks.WithCtx(ctx), e.fields)
      ensures Events.Acquired(pool, e)
      ensures e.capacity == if Hooks.WithCtx(ctx).Some? && ctxHook.Some? then |e.fields| else old(Events.NextCapacity(pool.free))
    {
      e := NewEvent(Hooks.WithCtx(ctx), Zap.WarnLevel, pool);
    }

    method Error(ctx: seq<Go.Nullable<Go.Context>>, pool: Events.Pool) returns (e: Events.Event)
      requires pool.Valid()
      modifies pool, pool.free
      ensures pool.Valid() && e.Valid() && e !in pool.free
      ensures e.lg == Go.Some(lg) && e.level == Zap.ErrorLevel && HookedFields(Hooks.WithCtx(ctx), e.fields)
      ensures Events.Acquired(pool, e)
      ensures e.capacity == if Hooks.WithCtx(ctx).Some? && ctxHook.Some? then |e.fields| else old(Events.NextCapacity(pool.free))
    {
      e := NewEvent(Hooks.WithCtx(ctx), Zap.ErrorLevel, pool);
    }

    method Fatal(ctx: seq<Go.Nullable<Go.Context>>, pool: Events.Pool) returns (e: Events.Event)
      requires pool.Valid()
      modifies pool, pool.free
      ensures pool.Valid() && e.Valid() && e !in pool.free
      ensures e.lg == Go.Some(lg) && e.level == Zap.FatalLevel && HookedFields(Hooks.WithCtx(ctx), e.fields)
      ensures Events.Acquired(pool, e)
      ensures e.capacity == if Hooks.WithCtx(ctx).Some? && ctxHook.Some? then |e.fields| else old(Events.NextCapacity(pool.free))
    {
      e := NewEvent(Hooks.WithCtx(ctx), Zap.FatalLevel, pool);
    }

    /**
     * Println: one Info record without context (so without hook fields)
     * whose message is fmt.Sprintln(args...) without its trailing newlines;
     * `sprintln` stands for fmt.Sprintln.
     */
    method Println(args: seq<Go.Dynamic>, sprintln: seq<Go.Dynamic> -> string, pool: Events.Pool, sink: Zap.Sink)
      requires pool.Valid()
      modifies pool, pool.free, sink
      ensures pool.Valid() && Events.Recycled(pool)
      ensures sink.emitted == old(sink.emitted) +
                [Zap.Entry(lg, Zap.InfoLevel, Strings.TrimRightNewlines(sprintln(args)), [])]
    {
      var e := NewEvent(Go.Nil, Zap.InfoLevel, pool);
      ghost var taken := pool.free;
      assert forall i :: 0 <= i < |old(pool.free)| - 1 ==> old(pool.free)[i] == taken[i] && taken[i] in taken;
      e.Msg(Strings.TrimRightNewlines(sprintln(args)), pool, sink);
    }

    /**
     * Printf: one Info record without context. The argument list is passed
     * to Msgf as a single slice value, not spread out.
     */
    method Printf(format: string, args: seq<Go.Dynamic>, sprintf: (string, seq<Go.Dynamic>) -> string,
                  pool: Events.Pool, sink: Zap.Sink)
      requires pool.Valid()
      modifies pool, pool.free, sink
      ensures pool.Valid() && Events.Recycled(pool)
      ensures sink.emitted == old(sink.emitted) +
                [Zap.Entry(lg, Zap.InfoLevel, sprintf(format, [Go.Slice(args)]), [])]
    {
      var e := NewEvent(Go.Nil, Zap.InfoLevel, pool);
      ghost var taken := pool.free;
      assert forall i :: 0 <= i < |old(pool.free)| - 1 ==> old(pool.free)[i] == taken[i] && taken[i] in taken;
      e.Msgf(format, [Go.Slice(args)], sprintf, pool, sink);
    }

    /** With: a new logger on the engine extended by one field, same options, no hook; this one is untouched. */
    method With(key: string, val: Go.Dynamic) returns (child: Logger)
      ensures fresh(child)
      ensures child.lg == Zap.With(lg, Zap.Any(key, val)) && child.opt == opt && child.ctxHook.Nil?
    {
      child := new Logger.Literal(Zap.With(lg, Zap.Any(key, val)), opt);
    }

    /** AddCtxHook: install the hook on this logger in place and return this logger. */
    method AddCtxHook(fn: Hooks.CtxHook) returns (r: Logger)
      modifies this
      ensures r == this && ctxHook == Go.Some(fn)
      ensures lg == old(lg) && opt == old(opt)
    {
      ctxHook := Go.Some(fn);
      r := this;
    }
  }

  /**
   * With a hook installed, a bare Send on an event built with a context
   * submits an empty message carrying exactly the hook's fields.
   */
  method HookedSend(l: Logger, fn: Hooks.CtxHook, ctx: Go.Context, pool: Events.Pool, sink: Zap.Sink)
    requires pool.Valid()
    modifies l, pool, pool.free, sink
    ensures |sink.emitted| == |old(sink.emitted)| + 1
    ensures var last := sink.emitted[|sink.emitted| - 1];
      last.message == "" && last.level == Zap.InfoLevel && FieldsOf(last.fields, fn(ctx))
  {
    var _ := l.AddCtxHook(fn);
    var e := l.Info([Go.Some(ctx)], pool);
    e.Send(pool, sink);
  }
}
