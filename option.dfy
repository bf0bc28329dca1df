/**
 * Logger configuration (option.go): the option record, its defaults, its
 * functional setters, the writer selection made from it, and the
 * arithmetic of the daily-rotation wait.
 */
module Options {
  import Go
  import Zap

  const DefaultSkipLevel: Go.Int64 := 1
  const DefaultMaxSize: Go.Int64 := 20
  const DefaultMaxAge: Go.Int64 := 15

  /**
   * The configuration record. `pretty` is not a field of the Go struct;
   * encoder.go reads it, so the model carries it (false unless set).
   */
  datatype Option = Option(
    dir: string,
    filename: string,
    disableConsole: bool,
    dailyRotation: bool,
    maxSize: Go.Int64,
    maxAge: Go.Int64,
    skipLevel: Go.Int64,
    timezone: Go.Nullable<Go.Location>,
    writer: Go.Nullable<Go.Output>,
    pretty: bool)
  {
    // Value-receiver setters: each returns a copy in which exactly one field differs.

    function SetDir(dir: string): (r: Option)
      ensures r.dir == dir && r.(dir := this.dir) == this
    {
      this.(dir := dir)
    }

    function SetFilename(filename: string): (r: Option)
      ensures r.filename == filename && r.(filename := this.filename) == this
    {
      this.(filename := filename)
    }

    function SetSkipLevel(level: Go.Int64): (r: Option)
      ensures r.skipLevel == level && r.(skipLevel := this.skipLevel) == this
    {
      this.(skipLevel := level)
    }

    function SetTimezone(tz: Go.Nullable<Go.Location>): (r: Option)
      ensures r.timezone == tz && r.(timezone := this.timezone) == this
    {
      this.(timezone := tz)
    }

    function SetMaxSize(size: Go.Int64): (r: Option)
      ensures r.maxSize == size && r.(maxSize := this.maxSize) == this
    {
      this.(maxSize := size)
    }

    function SetMaxAge(age: Go.Int64): (r: Option)
      ensures r.maxAge == age && r.(maxAge := this.maxAge) == this
    {
      this.(maxAge := age)
    }

    function SetWriter(w: Go.Nullable<Go.Output>): (r: Option)
      ensures r.writer == w && r.(writer := this.writer) == this
    {
      this.(writer := w)
    }

    function SetDailyRotation(rotation: bool): (r: Option)
      ensures r.dailyRotation == rotation && r.(dailyRotation := this.dailyRotation) == this
    {
      this.(dailyRotation := rotation)
    }

    function SetDisableConsole(disable: bool): (r: Option)
      ensures r.disableConsole == disable && r.(disableConsole := this.disableConsole) == this
    {
      this.(disableConsole := disable)
    }
  }

  /** The possible outcomes of time.LoadLocation("Asia/Shanghai"): nil when the zone database cannot be read, else that zone. */
  predicate ShanghaiLoaded(shanghai: Go.Nullable<Go.Location>) {
    shanghai.Nil? || shanghai == Go.Some(Go.Location("Asia/Shanghai"))
  }

  /** DefaultOption. `shanghai` is what time.LoadLocation("Asia/Shanghai") returned. */
  function DefaultOption(shanghai: Go.Nullable<Go.Location>): (o: Option)
    requires ShanghaiLoaded(shanghai)
    ensures o.skipLevel == 1 && o.maxSize == 20 && o.maxAge == 15
    ensures o.writer == Go.Some(Go.Stdout) && o.timezone == shanghai
    ensures o.dir == "" && o.filename == ""
    ensures !o.disableConsole && !o.dailyRotation && !o.pretty
  {
    Option(
      dir := "", filename := "", disableConsole := false, dailyRotation := false,
      maxSize := DefaultMaxSize, maxAge := DefaultMaxAge, skipLevel := DefaultSkipLevel,
      timezone := shanghai, writer := Go.Some(Go.Stdout), pretty := false)
  }

  /** The zero-argument newEncoder of option.go: JSON, ISO-8601 times, capital level names. */
  function NewEncoder(): (e: Zap.Encoder)
    ensures e.JSONEncoder?
    ensures e.config.encodeTime == Zap.ISO8601TimeEncoder && e.config.encodeLevel == Zap.CapitalLevelEncoder
  {
    Zap.JSONEncoder(Zap.EncoderConfig(Zap.ISO8601TimeEncoder, Zap.CapitalLevelEncoder))
  }

  /** The stream the console syncer writes to: a nil writer means standard output. */
  function ConsoleOutput(opt: Option): (out: Go.Output)
    ensures opt.writer.Some? ==> out == opt.writer.value
    ensures opt.writer.Nil? ==> out == Go.Stdout
  {
    if opt.writer.Nil? then Go.Stdout else opt.writer.value
  }

  /** newWriter's clean-up of the size and age limits: negatives become the defaults. */
  function Normalised(opt: Option): (n: Option)
    ensures n == opt.(maxSize := n.maxSize, maxAge := n.maxAge)
    ensures n.maxSize >= 0 && n.maxAge >= 0
    ensures opt.maxSize >= 0 ==> n.maxSize == opt.maxSize
    ensures opt.maxAge >= 0 ==> n.maxAge == opt.maxAge
    ensures opt.maxSize < 0 ==> n.maxSize == DefaultMaxSize
    ensures opt.maxAge < 0 ==> n.maxAge == DefaultMaxAge
  {
    var withSize := if opt.maxSize < 0 then opt.(maxSize := DefaultMaxSize) else opt;
    if withSize.maxAge < 0 then withSize.(maxAge := DefaultMaxAge) else withSize
  }

  /** What newWriter builds: the multi-write syncer's members and whether the rotation loop starts. */
  datatype Sinks = Sinks(syncers: seq<Zap.Syncer>, rotating: bool)

  /**
   * newWriter: console only without a file name; otherwise a lumberjack
   * file writer, preceded by the console unless the console is disabled.
   * The file writer's size limit is always the default: the normalised
   * MaxSize is computed and then not used.
   */
  function NewWriter(opt: Option): (w: Sinks)
    ensures |w.syncers| == if opt.filename != "" && !opt.disableConsole then 2 else 1
    ensures w.syncers[0].ConsoleSyncer? <==> (opt.filename == "" || !opt.disableConsole)
    ensures w.syncers[|w.syncers| - 1].FileSyncer? <==> opt.filename != ""
    ensures forall i :: 0 <= i < |w.syncers| && w.syncers[i].ConsoleSyncer? ==>
              w.syncers[i].out == ConsoleOutput(opt)
    ensures forall i :: 0 <= i < |w.syncers| && w.syncers[i].FileSyncer? ==>
              w.syncers[i].file == Zap.Lumberjack(opt.dir, opt.filename, DefaultMaxSize, Normalised(opt).maxAge)
    ensures w.rotating <==> opt.filename != "" && opt.dailyRotation
  {
    var console := Zap.ConsoleSyncer(ConsoleOutput(opt));
    if opt.filename == "" then
      Sinks([console], false)
    else
      var n := Normalised(opt);
      var file := Zap.FileSyncer(Zap.Lumberjack(n.dir, n.filename, DefaultMaxSize, n.maxAge));
      Sinks(if n.disableConsole then [file] else [console, file], n.dailyRotation)
  }

  /** The documented promise of DefaultOption: console only, to standard output, no rotation. */
  lemma DefaultIsConsoleOnly(shanghai: Go.Nullable<Go.Location>)
    requires ShanghaiLoaded(shanghai)
    ensures NewWriter(DefaultOption(shanghai)) == Sinks([Zap.ConsoleSyncer(Go.Stdout)], false)
  {
  }

  /** A file name on top of the defaults gives console then file, each with its default limits. */
  lemma DefaultWithFile(shanghai: Go.Nullable<Go.Location>, dir: string, name: string)
    requires ShanghaiLoaded(shanghai) && name != ""
    ensures NewWriter(DefaultOption(shanghai).SetDir(dir).SetFilename(name)) ==
            Sinks([Zap.ConsoleSyncer(Go.Stdout), Zap.FileSyncer(Zap.Lumberjack(dir, name, 20, 15))], false)
  {
  }

  // ---------------------------------------------------------------------
  // Daily rotation: the wait of one cycle of the rotation loop.

  /** One day in nanoseconds. */
  const NanosPerDay: int := 86_400_000_000_000

  /** The loop's wait (nanoseconds), one less than the gap from now to the next rotation instant. */
  function RotationWait(now: int, next: int): (wait: int)
    ensures now + wait + 1 == next
    ensures now < next ==> 0 <= wait < next - now
  {
    next - now - 1
  }

  /**
   * The next rotation instant as the loop computes it, for zones with fixed
   * UTC offsets (nanoseconds east of UTC): the calendar date of `now` is taken
   * in the process's own zone (`localOffset`, the zone of time.Now), that date
   * is parsed as midnight in the configured zone (`tzOffset`), and one day is
   * added.
   */
  function NextRotationAsWritten(now: int, localOffset: int, tzOffset: int): (next: int)
    ensures IsMidnight(next, tzOffset)
    ensures next - NanosPerDay <= now + (localOffset - tzOffset) < next
  {
    ((now + localOffset) / NanosPerDay) * NanosPerDay - tzOffset + NanosPerDay
  }

  /** The next midnight of the configured zone: the date of `now` taken in that zone. */
  function NextRotation(now: int, tzOffset: int): (next: int)
    ensures IsMidnight(next, tzOffset)
    ensures next - NanosPerDay <= now < next
  {
    ((now + tzOffset) / NanosPerDay) * NanosPerDay - tzOffset + NanosPerDay
  }

  /** A midnight of the fixed-offset zone. */
  predicate IsMidnight(t: int, tzOffset: int) {
    (t + tzOffset) % NanosPerDay == 0
  }

  /**
   * The intended schedule: the next rotation is a midnight of the configured
   * zone, the one before it is not after now, and the wait is non-negative
   * and less than a day.
   */
  lemma NextRotationIsNextMidnight(now: int, tzOffset: int)
    ensures IsMidnight(NextRotation(now, tzOffset), tzOffset)
    ensures NextRotation(now, tzOffset) - NanosPerDay <= now < NextRotation(now, tzOffset)
    ensures 0 <= RotationWait(now, NextRotation(now, tzOffset)) < NanosPerDay
  {
  }

  /** When the process runs in the configured zone, the code as written is the intended schedule. */
  lemma AsWrittenInOwnZone(now: int, offset: int)
    ensures NextRotationAsWritten(now, offset, offset) == NextRotation(now, offset)
  {
  }

  /**
   * When the process's zone is behind the configured zone by `lag` and the
   * process's clock is within `lag` of its own midnight, the computed instant
   * is already past: the wait is negative, so the timer fires at once and the
   * loop rotates again and again until the process's date changes.
   */
  lemma AsWrittenWaitNegative(now: int, localOffset: int, tzOffset: int)
    requires 0 < tzOffset - localOffset < NanosPerDay
    requires (now + localOffset) % NanosPerDay >= NanosPerDay - (tzOffset - localOffset)
    ensures RotationWait(now, NextRotationAsWritten(now, localOffset, tzOffset)) < 0
  {
  }

  /**
   * When the process's zone is ahead of the configured zone by `lead` and its
   * clock is less than `lead` past its own midnight, the wait is a day or more:
   * the configured zone's next midnight is skipped.
   */
  lemma AsWrittenSkipsMidnight(now: int, localOffset: int, tzOffset: int)
    requires 0 < localOffset - tzOffset < NanosPerDay
    requires (now + localOffset) % NanosPerDay < localOffset - tzOffset
    ensures NextRotation(now, tzOffset) < NextRotationAsWritten(now, localOffset, tzOffset)
    ensures RotationWait(now, NextRotationAsWritten(now, localOffset, tzOffset)) >= NanosPerDay
  {
  }

  /**
   * The rotation goroutine run for as many cycles as `clock` has readings:
   * cycle i reads the clock value clock[i], arms a timer for the wait to the
   * next rotation instant and rotates when it fires (Rotate itself is not
   * modelled). `deadlines` holds the instants the timers fire at. The next instant is the corrected one (the date taken in the
   * configured zone), so every timer fires exactly one nanosecond before a
   * midnight of that zone and less than a day after it was armed.
   */
  method RotationLoop(clock: seq<int>, tzOffset: int) returns (deadlines: seq<int>, cycles: nat)
    ensures cycles == |clock| && |deadlines| == |clock|
    ensures forall i :: 0 <= i < |clock| ==>
              IsMidnight(deadlines[i] + 1, tzOffset) && clock[i] <= deadlines[i] < clock[i] + NanosPerDay
  {
    deadlines := [];
    cycles := 0;
    while cycles < |clock|
      invariant cycles <= |clock| && |deadlines| == cycles
      invariant forall i :: 0 <= i < cycles ==>
                  IsMidnight(deadlines[i] + 1, tzOffset) && clock[i] <= deadlines[i] < clock[i] + NanosPerDay
    {
      var now := clock[cycles];
      var next := NextRotation(now, tzOffset);
      var after := RotationWait(now, next);
      NextRotationIsNextMidnight(now, tzOffset);
      deadlines := deadlines + [now + after];
      cycles := cycles + 1;
    }
  }

  /** The concrete case: process in UTC, configured UTC+8, at 20:00 UTC on the epoch day. */
  lemma AsWrittenShanghaiFromUtc()
    ensures RotationWait(72_000_000_000_000, NextRotationAsWritten(72_000_000_000_000, 0, 28_800_000_000_000))
            == -14_400_000_000_001
    ensures RotationWait(72_000_000_000_000, NextRotation(72_000_000_000_000, 28_800_000_000_000))
            == 71_999_999_999_999
  {
  }
}
