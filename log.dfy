/**
 * The package-level facade (log.go): one process-wide default logger,
 * built from the default options, to which the package functions delegate,
 * and Init, which replaces it.
 */
module Log {
  import Go
  import Zap
  import Options
  import Events
  import Hooks
  import Loggers
  import Strings

  /** The package's mutable global state: the default logger. */
  class Globals {
    var logger: Loggers.Logger

    /**
     * The initialiser `var logger = New(DefaultOption())`; `shanghai` is the
     * outcome of loading the Asia/Shanghai zone.
     */
    constructor (shanghai: Go.Nullable<Go.Location>)
      requires Options.ShanghaiLoaded(shanghai)
      ensures fresh(logger)
      ensures logger.lg == Loggers.NewLogger(Options.DefaultOption(shanghai))
      ensures logger.opt == Options.DefaultOption(shanghai) && logger.ctxHook.Nil?
    {
      logger := new Loggers.Logger.New(Options.DefaultOption(shanghai));
    }

    // The level functions: an event from the default logger for the first context passed.

    method Debug(ctx: seq<Go.Nullable<Go.Context>>, pool: Events.Pool) returns (e: Events.Event)
      requires pool.Valid()
      modifies pool, pool.free
      ensures pool.Valid() && e.Valid() && e !in pool.free
      ensures e.lg == Go.Some(logger.lg) && e.level == Zap.DebugLevel
      ensures logger.HookedFields(Hooks.WithCtx(ctx), e.fields)
      ensures Events.Acquired(pool, e)
      ensures e.capacity == if Hooks.WithCtx(ctx).Some? && logger.ctxHook.Some? then |e.fields| else old(Events.NextCapacity(pool.free))
    {
      e := logger.NewEvent(Hooks.WithCtx(ctx), Zap.DebugLevel, pool);
    }

    method Info(ctx: seq<Go.Nullable<Go.Context>>, pool: Events.Pool) returns (e: Events.Event)
      requires pool.Valid()
      modifies pool, pool.free
      ensures pool.Valid() && e.Valid() && e !in pool.free
      ensures e.lg == Go.Some(logger.lg) && e.level == Zap.InfoLevel
      ensures logger.HookedFields(Hooks.WithCtx(ctx), e.fields)
      ensures Events.Acquired(pool, e)
      ensures e.capacity == if Hooks.WithCtx(ctx).Some? && logger.ctxHook.Some? then |e.fields| else old(Events.NextCapacity(pool.free))
    {
      e := logger.NewEvent(Hooks.WithCtx(ctx), Zap.InfoLevel, pool);
    }

    method Warn(ctx: seq<Go.Nullable<Go.Context>>, pool: Events.Pool) returns (e: Events.Event)
      requires pool.Valid()
      modifies pool, pool.free
      ensures pool.Valid() && e.Valid() && e !in pool.free
      ensures e.lg == Go.Some(logger.lg) && e.level == Zap.WarnLevel
      ensures logger.HookedFields(Hooks.WithCtx(ctx), e.fields)
      ensures Events.Acquired(pool, e)
      ensures e.capacity == if Hooks.WithCtx(ctx).Some? && logger.ctxHook.Some? then |e.fields| else old(Events.NextCapacity(pool.free))
    {
      e := logger.NewEvent(Hooks.WithCtx(ctx), Zap.WarnLevel, pool);
    }

    method Error(ctx: seq<Go.Nullable<Go.Context>>, pool: Events.Pool) returns (e: Events.Event)
      requires pool.Valid()
      modifies pool, pool.free
      ensures pool.Valid() && e.Valid() && e !in pool.free
      ensures e.lg == Go.Some(logger.lg) && e.level == Zap.ErrorLevel
      ensures logger.HookedFields(Hooks.WithCtx(ctx), e.fields)
      ensures Events.Acquired(pool, e)
      ensures e.capacity == if Hooks.WithCtx(ctx).Some? && logger.ctxHook.Some? then |e.fields| else old(Events.NextCapacity(pool.free))
    {
      e := logger.NewEvent(Hooks.WithCtx(ctx), Zap.ErrorLevel, pool);
    }

    method Fatal(ctx: seq<Go.Nullable<Go.Context>>, pool: Events.Pool) returns (e: Events.Event)
      requires pool.Valid()
      modifies pool, pool.free
      ensures pool.Valid() && e.Valid() && e !in pool.free
      ensures e.lg == Go.Some(logger.lg) && e.level == Zap.FatalLevel
      ensures logger.HookedFields(Hooks.WithCtx(ctx), e.fields)
      ensures Events.Acquired(pool, e)
      ensures e.capacity == if Hooks.WithCtx(ctx).Some? && logger.ctxHook.Some? then |e.fields| else old(Events.NextCapacity(pool.free))
    {
      e := logger.NewEvent(Hooks.WithCtx(ctx), Zap.FatalLevel, pool);
    }

    /** Println on the default logger. */
    method Println(args: seq<Go.Dynamic>, sprintln: seq<Go.Dynamic> -> string, pool: Events.Pool, sink: Zap.Sink)
      requires pool.Valid()
      modifies pool, pool.free, sink
      ensures pool.Valid() && Events.Recycled(pool)
      ensures sink.emitted == old(sink.emitted) +
                [Zap.Entry(logger.lg, Zap.InfoLevel, Strings.TrimRightNewlines(sprintln(args)), [])]
    {
      logger.Println(args, sprintln, pool, sink);
    }

    /** Printf on the default logger. */
    method Printf(format: string, args: seq<Go.Dynamic>, sprintf: (string, seq<Go.Dynamic>) -> string,
                  pool: Events.Pool, sink: Zap.Sink)
      requires pool.Valid()
      modifies pool, pool.free, sink
      ensures pool.Valid() && Events.Recycled(pool)
      ensures sink.emitted == old(sink.emitted) +
                [Zap.Entry(logger.lg, Zap.InfoLevel, sprintf(format, [Go.Slice(args)]), [])]
    {
      logger.Printf(format, args, sprintf, pool, sink);
    }

    /** With: a derived logger; the default logger itself is unchanged. */
    method With(key: string, val: Go.Dynamic) returns (child: Loggers.Logger)
      ensures fresh(child) && child != logger
      ensures child.lg == Zap.With(logger.lg, Zap.Any(key, val)) && child.opt == logger.opt && child.ctxHook.Nil?
    {
      child := logger.With(key, val);
    }

    /** AddCtxHook: installs the hook on the default logger itself and returns it. */
    method AddCtxHook(fn: Hooks.CtxHook) returns (r: Loggers.Logger)
      modifies logger
      ensures r == logger && logger.ctxHook == Go.Some(fn)
      ensures logger.lg == old(logger.lg) && logger.opt == old(logger.opt)
    {
      r := logger.AddCtxHook(fn);
    }

    /** Init: replace the default logger by a new one for opt, without a hook. */
    method Init(opt: Options.Option)
      modifies this
      ensures fresh(logger)
      ensures logger.lg == Loggers.NewLogger(opt) && logger.opt == opt && logger.ctxHook.Nil?
    {
      logger := new Loggers.Logger.Literal(Loggers.NewLogger(opt), opt);
    }
  }

  /**
   * A hook installed before Init does not survive it: afterwards an event
   * built with a context carries no hook fields.
   */
  method InitDropsHook(g: Globals, fn: Hooks.CtxHook, opt: Options.Option, ctx: Go.Context, pool: Events.Pool)
    returns (e: Events.Event)
    requires pool.Valid()
    modifies g, g.logger, pool, pool.free
    ensures e.fields == [] && e.lg == Go.Some(Loggers.NewLogger(opt))
  {
    var _ := g.AddCtxHook(fn);
    g.Init(opt);
    e := g.Info([Go.Some(ctx)], pool);
  }
}
