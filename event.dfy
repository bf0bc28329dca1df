/**
 * The pooled event builder (event.go). An Event collects fields for one
 * log call; the terminal calls submit it to the engine and return the
 * object to a pool, from which later calls take it again. The pool is
 * modelled sequentially as a free list.
 */
module Events {
  import Go
  import Zap

  /** The field capacity a newly allocated event starts with. */
  const InitCap: nat := 4

  /** The capacity a full slice moves to on append: here it doubles; Go's exact growth rule is not modelled. */
  function Grow(capacity: nat): (c: nat)
    ensures c > capacity
  {
    if capacity == 0 then 1 else 2 * capacity
  }

  class Event {
    var lg: Go.Nullable<Zap.Handle>
    var level: Zap.Level
    var fields: seq<Zap.Field>
    /** The capacity of the backing array of `fields`. */
    var capacity: nat

    /** A slice is never longer than its backing array. */
    ghost predicate Valid()
      reads this
    {
      |fields| <= capacity
    }

    /** The state putEvent leaves an event in: no logger and no fields. */
    ghost predicate Blank()
      reads this
    {
      lg.Nil? && fields == []
    }

    /** eventPool.New: a zero Event whose field slice is empty with capacity initCap. */
    constructor New()
      ensures Valid() && Blank()
      ensures capacity == InitCap && level == Zap.InfoLevel
    {
      lg := Go.Nil;
      level := Zap.InfoLevel;  // Go's zero Level
      fields := [];
      capacity := InitCap;
    }

    /** `e.fields = append(e.fields, f)`. */
    method Append(f: Zap.Field)
      requires Valid()
      modifies this
      ensures Valid()
      ensures fields == old(fields) + [f] && lg == old(lg) && level == old(level)
      ensures old(|fields|) < old(capacity) ==> capacity == old(capacity)
    {
      if |fields| == capacity {
        capacity := Grow(capacity);
      }
      fields := fields + [f];
    }

    // The chained setters: each appends one field and returns the same event.

    method Int(key: string, val: Go.Int64) returns (r: Event)
      requires Valid()
      modifies this
      ensures r == this && Valid()
      ensures fields == old(fields) + [Zap.Int(key, val)] && lg == old(lg) && level == old(level)
      ensures old(|fields|) < old(capacity) ==> capacity == old(capacity)
    {
      Append(Zap.Int(key, val));
      r := this;
    }

    method Int64(key: string, val: Go.Int64) returns (r: Event)
      requires Valid()
      modifies this
      ensures r == this && Valid()
      ensures fields == old(fields) + [Zap.Int64(key, val)] && lg == old(lg) && level == old(level)
      ensures old(|fields|) < old(capacity) ==> capacity == old(capacity)
    {
      Append(Zap.Int64(key, val));
      r := this;
    }

    method Float64(key: string, val: Go.Float64) returns (r: Event)
      requires Valid()
      modifies this
      ensures r == this && Valid()
      ensures fields == old(fields) + [Zap.Float64(key, val)] && lg == old(lg) && level == old(level)
      ensures old(|fields|) < old(capacity) ==> capacity == old(capacity)
    {
      Append(Zap.Float64(key, val));
      r := this;
    }

    method Bool(key: string, val: bool) returns (r: Event)
      requires Valid()
      modifies this
      ensures r == this && Valid()
      ensures fields == old(fields) + [Zap.Bool(key, val)] && lg == old(lg) && level == old(level)
      ensures old(|fields|) < old(capacity) ==> capacity == old(capacity)
    {
      Append(Zap.Bool(key, val));
      r := this;
    }

    method Str(key: string, val: string) returns (r: Event)
      requires Valid()
      modifies this
      ensures r == this && Valid()
      ensures fields == old(fields) + [Zap.String(key, val)] && lg == old(lg) && level == old(level)
      ensures old(|fields|) < old(capacity) ==> capacity == old(capacity)
    {
      Append(Zap.String(key, val));
      r := this;
    }

    method Time(key: string, val: Go.Time) returns (r: Event)
      requires Valid()
      modifies this
      ensures r == this && Valid()
      ensures fields == old(fields) + [Zap.Time(key, val)] && lg == old(lg) && level == old(level)
      ensures old(|fields|) < old(capacity) ==> capacity == old(capacity)
    {
      Append(Zap.Time(key, val));
      r := this;
    }

    /** Err appends zap.Error(err): key "error", or the key-less Skip field for a nil error. */
    method Err(err: Go.Nullable<Go.Error>) returns (r: Event)
      requires Valid()
      modifies this
      ensures r == this && Valid()
      ensures fields == old(fields) + [Zap.NamedError(err)] && lg == old(lg) && level == old(level)
      ensures old(|fields|) < old(capacity) ==> capacity == old(capacity)
    {
      Append(Zap.NamedError(err));
      r := this;
    }

    method Any(key: string, val: Go.Dynamic) returns (r: Event)
      requires Valid()
      modifies this
      ensures r == this && Valid()
      ensures fields == old(fields) + [Zap.Any(key, val)] && lg == old(lg) && level == old(level)
      ensures old(|fields|) < old(capacity) ==> capacity == old(capacity)
    {
      Append(Zap.Any(key, val));
      r := this;
    }

    // The terminal calls. Each submits one record and then releases the event;
    // calling one on an event already released (no logger, or back in the
    // pool) is outside the contract, as in the source.

    /** Msg: submit (level, msg, fields) and release. */
    method Msg(msg: string, pool: Pool, sink: Zap.Sink)
      requires Valid() && lg.Some?
      requires pool.Valid() && this !in pool.free
      modifies this, pool, sink
      ensures sink.emitted == old(sink.emitted) + [Zap.Entry(old(lg.value), old(level), msg, old(fields))]
      ensures Valid() && Blank() && capacity == old(capacity) && level == old(level)
      ensures pool.Valid() && pool.free == old(pool.free) + [this]
    {
      sink.Log(lg.value, level, msg, fields);
      PutEvent(this, pool);
    }

    /** Msgf: as Msg with the message fmt.Sprintf(format, args...), `sprintf` standing for fmt. */
    method Msgf(format: string, args: seq<Go.Dynamic>, sprintf: (string, seq<Go.Dynamic>) -> string,
                pool: Pool, sink: Zap.Sink)
      requires Valid() && lg.Some?
      requires pool.Valid() && this !in pool.free
      modifies this, pool, sink
      ensures sink.emitted == old(sink.emitted) +
                [Zap.Entry(old(lg.value), old(level), sprintf(format, args), old(fields))]
      ensures Valid() && Blank() && capacity == old(capacity) && level == old(level)
      ensures pool.Valid() && pool.free == old(pool.free) + [this]
    {
      sink.Log(lg.value, level, sprintf(format, args), fields);
      PutEvent(this, pool);
    }

    /** Send: submit with an empty message and release. */
    method Send(pool: Pool, sink: Zap.Sink)
      requires Valid() && lg.Some?
      requires pool.Valid() && this !in pool.free
      modifies this, pool, sink
      ensures sink.emitted == old(sink.emitted) + [Zap.Entry(old(lg.value), old(level), "", old(fields))]
      ensures Valid() && Blank() && capacity == old(capacity) && level == old(level)
      ensures pool.Valid() && pool.free == old(pool.free) + [this]
    {
      sink.Log(lg.value, level, "", fields);
      PutEvent(this, pool);
    }
  }

  /**
   * The event pool (a sync.Pool whose New is eventPool.New), used by one
   * goroutine at a time. Its invariant: every pooled event is blank, and no
   * event is pooled twice.
   */
  class Pool {
    var free: seq<Event>

    ghost predicate Valid()
      reads this, free
    {
      && (forall i :: 0 <= i < |free| ==> free[i].Blank() && free[i].Valid())
      && (forall i, j :: 0 <= i < j < |free| ==> free[i] != free[j])
    }

    constructor ()
      ensures Valid() && free == []
    {
      free := [];
    }

    /**
     * Get: the most recently pooled event, or a new one from New when the
     * pool is empty. Either way the caller receives a blank event that is no
     * longer pooled.
     */
    method Get() returns (e: Event)
      requires Valid()
      modifies this
      ensures Valid() && e.Valid() && e.Blank() && e !in free
      ensures if old(free) == [] then fresh(e) && e.capacity == InitCap && free == []
              else e == old(free[|free| - 1]) && free == old(free[..|free| - 1])
    {
      if free == [] {
        e := new Event.New();
      } else {
        e := free[|free| - 1];
        free := free[..|free| - 1];
      }
    }

    /** Put: return a released (blank) event that is not already pooled. */
    method Put(e: Event)
      requires Valid() && e.Valid() && e.Blank() && e !in free
      modifies this
      ensures Valid() && free == old(free) + [e]
    {
      free := free + [e];
    }
  }

  /** The capacity of the event the pool hands out next: the last pooled one's, or InitCap for a new one. */
  ghost function NextCapacity(free: seq<Event>): nat
    reads free
  {
    if free == [] then InitCap else free[|free| - 1].capacity
  }

  /**
   * What taking `e` from `pool` did: `e` is the last pooled event, or a new
   * one when the pool was empty; the events still pooled are untouched.
   */
  twostate predicate Acquired(pool: Pool, new e: Event)
    reads pool, pool.free
  {
    && (if old(pool.free) == [] then fresh(e) && pool.free == []
        else e == old(pool.free[|pool.free| - 1]) && pool.free == old(pool.free[..|pool.free| - 1]))
    && (forall x :: x in pool.free ==> unchanged(x))
  }

  /**
   * What taking an event and releasing it again did to `pool`: the same event
   * is back on top with the capacity it was taken with (a new one when the
   * pool was empty), and the events below it are untouched.
   */
  twostate predicate Recycled(pool: Pool)
    reads pool, pool.free
  {
    && (if old(pool.free) == [] then |pool.free| == 1 && fresh(pool.free[0]) else pool.free == old(pool.free))
    && pool.free[|pool.free| - 1].capacity == old(NextCapacity(pool.free))
    && (forall i :: 0 <= i < |old(pool.free)| - 1 ==> unchanged(old(pool.free)[i]))
  }

  /**
   * newEvent: take an event from the pool and bind it to the engine handle
   * and level. The event taken is the last pooled one, with the capacity it
   * was pooled with, or a new one; the pool invariant makes its fields empty.
   * The other pooled events stay pooled and untouched. The context is not
   * used here.
   */
  method NewEvent(ctx: Go.Nullable<Go.Context>, logger: Zap.Handle, level: Zap.Level, pool: Pool)
    returns (e: Event)
    requires pool.Valid()
    modifies pool, pool.free
    ensures pool.Valid() && e.Valid() && e !in pool.free
    ensures e.lg == Go.Some(logger) && e.level == level && e.fields == []
    ensures Acquired(pool, e) && e.capacity == old(NextCapacity(pool.free))
  {
    e := pool.Get();
    e.lg := Go.Some(logger);
    e.level := level;
  }

  /** putEvent: clear the logger, truncate the fields keeping their capacity, and pool the event. */
  method PutEvent(e: Event, pool: Pool)
    requires e.Valid() && pool.Valid() && e !in pool.free
    modifies e, pool
    ensures e.Valid() && e.Blank() && e.capacity == old(e.capacity) && e.level == old(e.level)
    ensures pool.Valid() && pool.free == old(pool.free) + [e]
  {
    e.lg := Go.Nil;
    e.fields := [];
    pool.Put(e);
  }

  /**
   * The reuse guarantee on one round trip: however many fields an event
   * carried when it was released, the next acquisition is bound to the new
   * handle and level and has no fields.
   */
  method AcquireAfterRelease(pool: Pool, sink: Zap.Sink, first: Zap.Handle, second: Zap.Handle,
                             keys: seq<string>)
    returns (e: Event)
    requires pool.Valid()
    modifies pool, pool.free, sink
    ensures e.lg == Go.Some(second) && e.level == Zap.DebugLevel && e.fields == []
    ensures |sink.emitted| == |old(sink.emitted)| + 1
    ensures sink.emitted[|sink.emitted| - 1].fields == seq(|keys|, i requires 0 <= i < |keys| => Zap.Bool(keys[i], true))
  {
    var used := NewEvent(Go.Nil, first, Zap.ErrorLevel, pool);
    ghost var pooled := pool.free;
    var i := 0;
    while i < |keys|
      invariant 0 <= i <= |keys|
      invariant pool.free == pooled
      invariant used.Valid() && used.lg == Go.Some(first) && used !in pool.free && pool.Valid()
      invariant used.fields == seq(i, j requires 0 <= j < i => Zap.Bool(keys[j], true))
      invariant unchanged(sink)
    {
      var _ := used.Bool(keys[i], true);
      i := i + 1;
    }
    used.Send(pool, sink);
    e := NewEvent(Go.Nil, second, Zap.DebugLevel, pool);
  }
}
