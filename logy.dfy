/** entry.go and logger.go: log entries, which every `With*` call copies, and
    the logger that owns the configuration, the level gate, the pool of reusable
    entries and the exit function. An entry points at its logger and a logger
    pools entries, so both live in one module. */
module Logy {
  import opened Base
  import opened Strings
  import opened Buffers
  import opened EntryData

  /** An `io.Writer` the logger may be given; only its identity is modelled. */
  datatype Writer = Stderr | CustomWriter(id: nat)

  /** The logger's `Formatter`; only which one is installed is modelled. */
  datatype FormatterChoice = DefaultTextFormatter | CustomFormatter(id: nat)

  /** The logger's `ExitFunc`: `os.Exit` or a function the caller installed. */
  datatype ExitFunc = OsExit | CustomExit(id: nat)

  /** A call of the exit function with a status code. */
  datatype ExitCall = ExitCall(func: ExitFunc, code: int)

  /** What `file.Stat()` reports: a failure, or the file's base name and size. */
  datatype FileStat = StatFailed | Stat(name: string, size: Int64)

  /** The record `log` hands to the writer, and whether `log` then panics
      with it. */
  datatype Emission = Emission(record: Entry, panicked: bool)

  /** The paths `cutFile` works with: the active log file, the name it is
      renamed to, and the archive `zipFile` writes. */
  datatype Rotation = Rotation(activePath: string, backupPath: string, archiveName: string)

  /** The layout `cutFile` formats the current time with. */
  const RotationStampLayout := "2006-01-02-15-04-05"

  /** `NewEntry`: an entry bound to `logger`, with no fields, zero time and no
      error. It is already what `Dup` resets an entry to. */
  function NewEntry(logger: Logger?): (e: Entry)
    ensures e.logger == logger && e.data == map[] && e.err == ""
    ensures e.time.IsZero() && e.context == None
    ensures e.Dup() == e
  {
    Entry(logger, map[], ZeroTime, 0, None, "", null, None, "")
  }

  /** Every `With*` call and `Dup` copy the logger, the fields, the time, the
      context and the error, and leave the per-call parts at their zero values. */
  ghost predicate PerCallReset(r: Entry) {
    r.level == 0 && r.message == "" && r.caller == None && r.buffer == null
  }

  /** `r` keeps what a copy of `e` keeps, except what the caller overrides. */
  ghost predicate Carries(r: Entry, e: Entry) {
    r.logger == e.logger && r.time == e.time && r.context == e.context
  }

  /** No stored field holds a function value. */
  ghost predicate FuncFree(data: Fields) {
    forall k :: k in data ==> !data[k].IsFunc()
  }

  datatype Entry = Entry(
    logger: Logger?,
    data: Fields,
    time: Time,
    level: Level,
    caller: Option<Frame>,
    message: string,
    buffer: Buffer?,
    context: Option<Context>,
    err: string)
  {
    /** `Dup`: a copy that keeps the logger, fields, time, context and error. */
    function Dup(): (r: Entry)
      ensures Carries(r, this) && r.data == data && r.err == err
      ensures PerCallReset(r)
    {
      Entry(logger, data, time, 0, None, "", null, context, err)
    }

    /** `WithFields`: copies the entry and merges `fields`, visited in `order`
        (Go's iteration order of the map). Function values are refused and
        named in the error text instead of being stored. */
    function WithFields(fields: Fields, order: seq<string>, host: Host): (r: Entry)
      requires Enumerates(order, fields.Keys)
      ensures Carries(r, this) && PerCallReset(r)
      ensures r.data == data + Accepted(fields)
      ensures forall k :: k in fields && fields[k].IsFunc() ==>
                (k in r.data <==> k in data) && (k in data ==> r.data[k] == data[k])
      ensures FuncFree(data) ==> FuncFree(r.data)
      ensures r.err == ErrAfter(err, err, Refused(fields, order), host.quote)
      ensures (forall k :: k in fields ==> !fields[k].IsFunc()) ==> r.err == err
    {
      var merged := MergeFields(data, err, fields, order, host.quote);
      RefusedKeepsOld(data, fields);
      NoFuncNoRefusal(fields, order);
      Entry(logger, merged.0, time, 0, None, "", null, context, merged.1)
    }

    /** `WithField(key, value)` is `WithFields` of the one-field map: the value
        is stored unless it is a function, in which case the error text becomes
        the refusal, after the existing error and ", " if there was one. */
    function WithField(key: string, value: Value, host: Host): (r: Entry)
      ensures Carries(r, this) && PerCallReset(r)
      ensures !value.IsFunc() ==> r.data == data[key := value] && r.err == err
      ensures value.IsFunc() ==> r.data == data
      ensures value.IsFunc() && err == "" ==> r.err == CannotAdd(key, host.quote)
      ensures value.IsFunc() && err != "" ==> r.err == err + ", " + CannotAdd(key, host.quote)
    {
      var fields := map[key := value];
      assert Enumerates([key], fields.Keys) by {
        assert fields.Keys == {key};
      }
      assert Refused(fields, [key]) == (if value.IsFunc() then [key] else []) by {
        assert Refused(fields, [key][1..]) == [];
      }
      assert data + Accepted(fields) == (if value.IsFunc() then data else data[key := value]);
      WithFields(fields, [key], host)
    }

    /** `WithError`: the error is stored under `ErrorKey`. */
    function WithError(e: Value, host: Host): (r: Entry)
      ensures Carries(r, this) && PerCallReset(r)
      ensures !e.IsFunc() ==> r.data == data[ErrorKey := e] && r.err == err
      ensures e.IsFunc() ==> r.data == data
    {
      WithField(ErrorKey, e, host)
    }

    /** `WithContext`: a copy carrying `ctx`. */
    function WithContext(ctx: Option<Context>): (r: Entry)
      ensures r == Dup().(context := ctx)
    {
      Entry(logger, data, time, 0, None, "", null, ctx, err)
    }

    /** `WithTime`: a copy carrying `t`. */
    function WithTime(t: Time): (r: Entry)
      ensures r == Dup().(time := t)
    {
      Entry(logger, data, t, 0, None, "", null, context, err)
    }

    /** `HasCaller`: the entry has a logger that reports callers, and a frame. */
    function HasCaller(): (has: bool)
      reads logger
      ensures has ==> caller.Some?
      ensures has <==> logger != null && logger.reportCaller && caller != None
    {
      if logger == null then false else logger.reportCaller && caller.Some?
    }

    /** `getBufferPool`: the logger's own pool, else the package's default. */
    function GetBufferPool(defaultPool: BufferPool): (pool: BufferPool)
      requires logger != null
      reads logger
      ensures logger.bufferPool != null ==> pool == logger.bufferPool
      ensures logger.bufferPool == null ==> pool == defaultPool
    {
      if logger.bufferPool != null then logger.bufferPool else defaultPool
    }

    /** The record `log` renders: a duplicate stamped with `host.now` if its
        time is zero, carrying `level` and `msg`, and the caller's frame when
        the logger reports callers. */
    function Finalized(level: Level, msg: string, host: Host): (r: Entry)
      requires logger != null
      reads logger
      ensures r.logger == logger && r.data == data && r.context == context && r.err == err
      ensures r.level == level && r.message == msg && r.buffer == null
      ensures !time.IsZero() ==> r.time == time
      ensures time.IsZero() ==> r.time == host.now
      ensures r.caller.Some? ==> logger.reportCaller
      ensures r.HasCaller() <==> logger.reportCaller && host.caller.Some?
    {
      var d := Dup();
      var stamped := if d.time.IsZero() then d.(time := host.now) else d;
      stamped.(level := level, message := msg,
               caller := if logger.reportCaller then host.caller else None)
    }

    /** `log`: builds the finalized record, lends it a buffer from the pool
        while it is written, returns the buffer emptied, and panics with the
        record at `PanicLevel`. The receiver is a value and stays as it was. */
    method Emit(level: Level, msg: string, host: Host, defaultPool: BufferPool) returns (em: Emission)
      requires logger != null
      modifies GetBufferPool(defaultPool), GetBufferPool(defaultPool).free
      ensures em.record == Finalized(level, msg, host)
      ensures em.panicked <==> level == PanicLevel
      ensures LentAndReturned(GetBufferPool(defaultPool))
    {
      var newEntry := Dup();
      if newEntry.time.IsZero() {
        newEntry := newEntry.(time := host.now);
      }
      newEntry := newEntry.(level := level, message := msg);
      var reportCaller := logger.reportCaller;
      var bufPool := GetBufferPool(defaultPool);
      if reportCaller {
        newEntry := newEntry.(caller := host.caller);
      }
      ghost var before := bufPool.free;
      var buffer := bufPool.Get();
      buffer.Reset();
      newEntry := newEntry.(buffer := buffer);
      // the formatter and the writer run here; they are not part of this model
      newEntry := newEntry.(buffer := null);
      // the deferred return of the buffer
      buffer.Reset();
      bufPool.Put(buffer);
      if before != [] {
        assert bufPool.free == before[..|before| - 1] + [before[|before| - 1]];
      }
      em := Emission(newEntry, level <= PanicLevel);
    }

    /** `Log`: `log` with the `fmt.Sprint` text of `args`, only when the
        logger's level enables `level`. */
    method Log(level: Level, args: seq<Value>, host: Host, defaultPool: BufferPool)
      returns (em: Option<Emission>)
      requires logger != null
      modifies GetBufferPool(defaultPool), GetBufferPool(defaultPool).free
      ensures Logged(em, level, args, host)
      ensures PoolAfterLog(GetBufferPool(defaultPool), em.Some?)
    {
      if logger.IsLevelEnabled(level) {
        var e := Emit(level, host.sprint(args), host, defaultPool);
        em := Some(e);
      } else {
        em := None;
      }
    }

    /** What `Log(level, args...)` produced: nothing when the level is
        disabled, else the finalized record, panicking exactly at `PanicLevel`. */
    ghost predicate Logged(em: Option<Emission>, level: Level, args: seq<Value>, host: Host)
      requires logger != null
      reads logger
    {
      (em.Some? <==> logger.IsLevelEnabled(level)) &&
      (em.Some? ==> em.value.record == Finalized(level, host.sprint(args), host) &&
                    (em.value.panicked <==> level == PanicLevel))
    }

    method Trace(args: seq<Value>, host: Host, defaultPool: BufferPool) returns (em: Option<Emission>)
      requires logger != null
      modifies GetBufferPool(defaultPool), GetBufferPool(defaultPool).free
      ensures Logged(em, TraceLevel, args, host)
      ensures PoolAfterLog(GetBufferPool(defaultPool), em.Some?)
    {
      em := Log(TraceLevel, args, host, defaultPool);
    }

    method Debug(args: seq<Value>, host: Host, defaultPool: BufferPool) returns (em: Option<Emission>)
      requires logger != null
      modifies GetBufferPool(defaultPool), GetBufferPool(defaultPool).free
      ensures Logged(em, DebugLevel, args, host)
      ensures PoolAfterLog(GetBufferPool(defaultPool), em.Some?)
    {
      em := Log(DebugLevel, args, host, defaultPool);
    }

    /** `Print` logs at `InfoLevel`. */
    method Print(args: seq<Value>, host: Host, defaultPool: BufferPool) returns (em: Option<Emission>)
      requires logger != null
      modifies GetBufferPool(defaultPool), GetBufferPool(defaultPool).free
      ensures Logged(em, InfoLevel, args, host)
      ensures PoolAfterLog(GetBufferPool(defaultPool), em.Some?)
    {
      em := Info(args, host, defaultPool);
    }

    method Info(args: seq<Value>, host: Host, defaultPool: BufferPool) returns (em: Option<Emission>)
      requires logger != null
      modifies GetBufferPool(defaultPool), GetBufferPool(defaultPool).free
      ensures Logged(em, InfoLevel, args, host)
      ensures PoolAfterLog(GetBufferPool(defaultPool), em.Some?)
    {
      em := Log(InfoLevel, args, host, defaultPool);
    }

    method Warn(args: seq<Value>, host: Host, defaultPool: BufferPool) returns (em: Option<Emission>)
      requires logger != null
      modifies GetBufferPool(defaultPool), GetBufferPool(defaultPool).free
      ensures Logged(em, WarnLevel, args, host)
      ensures PoolAfterLog(GetBufferPool(defaultPool), em.Some?)
    {
      em := Log(WarnLevel, args, host, defaultPool);
    }

    /** `Warning` logs at `WarnLevel`. */
    method Warning(args: seq<Value>, host: Host, defaultPool: BufferPool) returns (em: Option<Emission>)
      requires logger != null
      modifies GetBufferPool(defaultPool), GetBufferPool(defaultPool).free
      ensures Logged(em, WarnLevel, args, host)
      ensures PoolAfterLog(GetBufferPool(defaultPool), em.Some?)
    {
      em := Warn(args, host, defaultPool);
    }

    method Error(args: seq<Value>, host: Host, defaultPool: BufferPool) returns (em: Option<Emission>)
      requires logger != null
      modifies GetBufferPool(defaultPool), GetBufferPool(defaultPool).free
      ensures Logged(em, ErrorLevel, args, host)
      ensures PoolAfterLog(GetBufferPool(defaultPool), em.Some?)
    {
      em := Log(ErrorLevel, args, host, defaultPool);
    }

    /** `Fatal`: logs at `FatalLevel`, then calls the logger's `Exit(1)`
        whether or not the level let the record through. */
    method Fatal(args: seq<Value>, host: Host, defaultPool: BufferPool)
      returns (em: Option<Emission>, call: ExitCall)
      requires logger != null
      modifies GetBufferPool(defaultPool), GetBufferPool(defaultPool).free, logger`exitFunc
      ensures old(logger.IsLevelEnabled(FatalLevel)) <==> em.Some?
      ensures em.Some? ==> !em.value.panicked &&
                           em.value.record == old(Finalized(FatalLevel, host.sprint(args), host))
      ensures PoolAfterLog(GetBufferPool(defaultPool), em.Some?)
      ensures logger.exitFunc == if old(logger.exitFunc) == None then Some(OsExit) else old(logger.exitFunc)
      ensures call == ExitCall(logger.exitFunc.value, 1)
    {
      em := Log(FatalLevel, args, host, defaultPool);
      call := logger.Exit(1);
    }

    /** `Panic`: logs at `PanicLevel`, which every level enables, so it
        always panics. */
    method Panic(args: seq<Value>, host: Host, defaultPool: BufferPool) returns (em: Option<Emission>)
      requires logger != null
      modifies GetBufferPool(defaultPool), GetBufferPool(defaultPool).free
      ensures em.Some? && em.value.panicked
      ensures em.value.record == Finalized(PanicLevel, host.sprint(args), host)
      ensures LentAndReturned(GetBufferPool(defaultPool))
    {
      em := Log(PanicLevel, args, host, defaultPool);
    }
  }

  /** The buffer pool after `Log`: a buffer was lent and given back emptied
      when the level was enabled; nothing was touched otherwise. */
  twostate predicate PoolAfterLog(pool: BufferPool, enabled: bool)
    reads pool, pool.free
  {
    if enabled then LentAndReturned(pool) else Untouched(pool)
  }

  // ----- properties of entries across operations -----

  /** A refused key keeps its old value, or stays absent, and merging only
      accepted fields stores no function value. */
  lemma RefusedKeepsOld(data: Fields, fields: Fields)
    ensures forall k :: k in fields && fields[k].IsFunc() ==>
              (k in data + Accepted(fields) <==> k in data) &&
              (k in data ==> (data + Accepted(fields))[k] == data[k])
    ensures FuncFree(data) ==> FuncFree(data + Accepted(fields))
  {
  }

  /** Without a function among the incoming values nothing is refused. */
  lemma NoFuncNoRefusal(fields: Fields, order: seq<string>)
    ensures (forall k :: k in fields ==> !fields[k].IsFunc()) ==> Refused(fields, order) == []
  {
    if Refused(fields, order) != [] {
      var k := Refused(fields, order)[0];
      assert k in fields && fields[k].IsFunc();
    }
  }

  /** `WithError(e)` is `WithField(ErrorKey, e)`, and `WithField(k, v)` is
      `WithFields` of the one-field map. */
  lemma WithFieldIsWithFields(e: Entry, key: string, value: Value, host: Host)
    ensures Enumerates([key], map[key := value].Keys)
    ensures e.WithField(key, value, host) == e.WithFields(map[key := value], [key], host)
    ensures e.WithError(value, host) == e.WithField(ErrorKey, value, host)
  {
    assert map[key := value].Keys == {key};
  }

  /** With more than one refusal in a call, only the receiver's error and the
      last refusal survive; when the receiver had no error, the text starts
      with ", ". */
  lemma {:induction false} WithFieldsKeepsLastRefusal(e: Entry, fields: Fields, order: seq<string>, host: Host)
    requires Enumerates(order, fields.Keys)
    requires |Refused(fields, order)| >= 2
    ensures var refused := Refused(fields, order);
            e.WithFields(fields, order, host).err
              == e.err + ", " + CannotAdd(refused[|refused| - 1], host.quote)
    ensures e.err == "" ==> e.WithFields(fields, order, host).err[..2] == ", "
  {
    var refused := Refused(fields, order);
    var r := e.WithFields(fields, order, host);
    assert r.err == e.err + ", " + CannotAdd(refused[|refused| - 1], host.quote);
    if e.err == "" {
      assert r.err == ", " + CannotAdd(refused[|refused| - 1], host.quote);
    }
  }

  /** The record `log` writes keeps a non-zero time and, when the entry is
      fresh from a logger, no fields and no error. */
  lemma FinalizedFromNewEntry(logger: Logger, level: Level, msg: string, host: Host)
    ensures var r := NewEntry(logger).Finalized(level, msg, host);
            r.data == map[] && r.err == "" && r.time == host.now && r.level == level
  {
  }

  // ----- logger.go -----

  /** `Logger`. The mutex is sequential state: only whether it was disabled is
      kept. The entry pool is the list of entries waiting to be reused. */
  class Logger {
    var maxFileSize: Int64
    var ifwFile: bool
    var fp: string
    var fn: string
    var out: Writer
    var formatter: FormatterChoice
    var reportCaller: bool
    var level: Level
    var lockDisabled: bool
    var entryPool: seq<Entry>
    var exitFunc: Option<ExitFunc>
    var bufferPool: BufferPool?

    /** Every pooled entry is a fresh entry of this logger: `releaseEntry`
        clears the fields, and nothing the logger does to a borrowed entry
        changes anything else in it. */
    ghost predicate Valid()
      reads this
    {
      forall e :: e in entryPool ==> e == NewEntry(this)
    }

    /** `New`: the default configuration. */
    constructor New()
      ensures !ifwFile && level == InfoLevel && !reportCaller
      ensures fp == "./" && fn == "app.log" && maxFileSize == 10240
      ensures exitFunc == Some(OsExit) && out == Stderr && formatter == DefaultTextFormatter
      ensures !lockDisabled && bufferPool == null && entryPool == []
      ensures Valid()
    {
      maxFileSize := 10240;
      ifwFile := false;
      fp := "./";
      fn := "app.log";
      out := Stderr;
      formatter := DefaultTextFormatter;
      reportCaller := false;
      level := InfoLevel;
      lockDisabled := false;
      entryPool := [];
      exitFunc := Some(OsExit);
      bufferPool := null;
    }

    /** `newEntry`: the most recently pooled entry, or a new one. */
    method NewEntryFromPool() returns (e: Entry)
      requires Valid()
      modifies this`entryPool
      ensures Valid()
      ensures e == NewEntry(this)
      ensures old(entryPool) == [] ==> entryPool == []
      ensures old(entryPool) != [] ==> entryPool == old(entryPool)[..|old(entryPool)| - 1]
      ensures entryPool + [NewEntry(this)] == Replenished(old(entryPool))
    {
      if entryPool == [] {
        e := NewEntry(this);
      } else {
        ghost var before := entryPool;
        e := entryPool[|entryPool| - 1];
        assert e in before;
        entryPool := entryPool[..|entryPool| - 1];
        assert before == entryPool + [e];
        assert forall x :: x in entryPool ==> x in before;
      }
    }

    /** `releaseEntry`: clears the entry's fields and pools it. */
    method ReleaseEntry(e: Entry)
      modifies this`entryPool
      ensures entryPool == old(entryPool) + [e.(data := map[])]
      ensures old(Valid()) && e.(data := map[]) == NewEntry(this) ==> Valid()
    {
      entryPool := entryPool + [e.(data := map[])];
    }

    /** The pool after borrowing an entry and giving it back. */
    ghost function Replenished(pool: seq<Entry>): seq<Entry>
      reads this
    {
      if pool == [] then [NewEntry(this)] else pool
    }

    method WithField(key: string, value: Value, host: Host) returns (r: Entry)
      requires Valid()
      modifies this`entryPool
      ensures Valid() && entryPool == Replenished(old(entryPool))
      ensures r == NewEntry(this).WithField(key, value, host)
    {
      var e := NewEntryFromPool();
      r := e.WithField(key, value, host);
      ReleaseEntry(e);
    }

    method WithFields(fields: Fields, order: seq<string>, host: Host) returns (r: Entry)
      requires Valid()
      requires Enumerates(order, fields.Keys)
      modifies this`entryPool
      ensures Valid() && entryPool == Replenished(old(entryPool))
      ensures r == NewEntry(this).WithFields(fields, order, host)
    {
      var e := NewEntryFromPool();
      r := e.WithFields(fields, order, host);
      ReleaseEntry(e);
    }

    method WithError(err: Value, host: Host) returns (r: Entry)
      requires Valid()
      modifies this`entryPool
      ensures Valid() && entryPool == Replenished(old(entryPool))
      ensures r == NewEntry(this).WithError(err, host)
    {
      var e := NewEntryFromPool();
      r := e.WithError(err, host);
      ReleaseEntry(e);
    }

    method WithContext(ctx: Option<Context>) returns (r: Entry)
      requires Valid()
      modifies this`entryPool
      ensures Valid() && entryPool == Replenished(old(entryPool))
      ensures r == NewEntry(this).WithContext(ctx)
    {
      var e := NewEntryFromPool();
      r := e.WithContext(ctx);
      ReleaseEntry(e);
    }

    method WithTime(t: Time) returns (r: Entry)
      requires Valid()
      modifies this`entryPool
      ensures Valid() && entryPool == Replenished(old(entryPool))
      ensures r == NewEntry(this).WithTime(t)
    {
      var e := NewEntryFromPool();
      r := e.WithTime(t);
      ReleaseEntry(e);
    }

    /** `checkLogSize`: rotate when the file's size is strictly above the
        limit; a failed stat never rotates. */
    function CheckLogSize(file: FileStat): (rotate: bool)
      reads this
      ensures rotate ==> file.Stat?
      ensures file.Stat? ==> (rotate <==> file.size > maxFileSize)
    {
      match file
      case StatFailed => false
      case Stat(_, size) => size > maxFileSize
    }

    /** The paths `cutFile` and `zipFile` derive from the file's base name and
        the current time; a failed stat stops both before any name is made. */
    function CutFilePaths(file: FileStat, host: Host): (r: Option<Rotation>)
      reads this
      ensures r.None? <==> file.StatFailed?
      ensures r.Some? ==>
                r.value.activePath == host.join(fp, file.name) &&
                r.value.backupPath == host.join(fp, BackupName(file.name, host.timeText(host.now, RotationStampLayout))) &&
                r.value.archiveName == ArchiveName(file.name)
    {
      match file
      case StatFailed => None
      case Stat(name, _) =>
        var stamp := host.timeText(host.now, RotationStampLayout);
        Some(Rotation(host.join(fp, name), host.join(fp, BackupName(name, stamp)), ArchiveName(name)))
    }

    /** `Log`: when the level is enabled, borrows an entry, logs through it and
        returns it to the pool; a panic skips the return. */
    method Log(level: Level, args: seq<Value>, host: Host, defaultPool: BufferPool)
      returns (em: Option<Emission>)
      requires Valid()
      modifies this`entryPool, ActivePool(defaultPool), ActivePool(defaultPool).free
      ensures Valid()
      ensures LogOutcome(em, level, args, host, defaultPool)
    {
      if IsLevelEnabled(level) {
        em := LogThroughPooledEntry(level, args, host, defaultPool);
      } else {
        em := None;
      }
    }

    /** `LogFn`: like `Log`, but the arguments come from `fn`, which is called
        only when the level is enabled. */
    method LogFn(level: Level, fn: () -> seq<Value>, host: Host, defaultPool: BufferPool)
      returns (em: Option<Emission>, fnCalled: bool)
      requires Valid()
      modifies this`entryPool, ActivePool(defaultPool), ActivePool(defaultPool).free
      ensures Valid()
      ensures fnCalled <==> IsLevelEnabled(level)
      ensures LogOutcome(em, level, fn(), host, defaultPool)
    {
      fnCalled := false;
      if IsLevelEnabled(level) {
        var args := fn();
        fnCalled := true;
        em := LogThroughPooledEntry(level, args, host, defaultPool);
      } else {
        em := None;
      }
    }

    /** The enabled branch of `Log` and `LogFn`: `newEntry`, the entry's
        `Log`, then `releaseEntry` unless the entry's `Log` panicked. */
    method LogThroughPooledEntry(level: Level, args: seq<Value>, host: Host, defaultPool: BufferPool)
      returns (em: Option<Emission>)
      requires Valid() && IsLevelEnabled(level)
      modifies this`entryPool, ActivePool(defaultPool), ActivePool(defaultPool).free
      ensures Valid()
      ensures LogOutcome(em, level, args, host, defaultPool)
    {
      ghost var pool := ActivePool(defaultPool);
      var e := NewEntryFromPool();
      assert e.GetBufferPool(defaultPool) == pool;
      em := e.Log(level, args, host, defaultPool);
      label logged:
      if !em.value.panicked {
        ReleaseEntry(e);
      }
      assert PoolAfterLog@logged(pool, true) ==> PoolAfterLog(pool, true);
    }

    /** The buffer pool `log` borrows from for this logger's entries. */
    function ActivePool(defaultPool: BufferPool): (pool: BufferPool)
      reads this
      ensures pool == NewEntry(this).GetBufferPool(defaultPool)
    {
      if bufferPool != null then bufferPool else defaultPool
    }

    /** The record a logging call produced: one exactly when the level is
        enabled, the finalized record of a fresh entry of this logger. */
    ghost predicate LoggedAt(em: Option<Emission>, level: Level, args: seq<Value>, host: Host)
      reads this
    {
      (em.Some? <==> IsLevelEnabled(level)) &&
      (em.Some? ==> em.value.record == NewEntry(this).Finalized(level, host.sprint(args), host))
    }

    /** Everything `Log` leaves behind: the record as `LoggedAt` says, which
        panics exactly at `PanicLevel`; the logger keeps its buffer pool; a disabled level touches neither pool;
        an enabled one lends a buffer and gets it back emptied, and returns
        the borrowed entry to the entry pool unless the call panicked, in
        which case the entry stays out. */
    twostate predicate LogOutcome(new em: Option<Emission>, level: Level, args: seq<Value>, host: Host,
                                  defaultPool: BufferPool)
      reads this, ActivePool(defaultPool), ActivePool(defaultPool).free
    {
      LoggedAt(em, level, args, host) &&
      (em.Some? ==> (em.value.panicked <==> level == PanicLevel)) &&
      bufferPool == old(bufferPool) &&
      PoolAfterLog(ActivePool(defaultPool), em.Some?) &&
      (em.None? ==> entryPool == old(entryPool)) &&
      (em.Some? && !em.value.panicked ==> entryPool == Replenished(old(entryPool))) &&
      (em.Some? && em.value.panicked ==> entryPool == Borrowed(old(entryPool)))
    }

    method Trace(args: seq<Value>, host: Host, defaultPool: BufferPool) returns (em: Option<Emission>)
      requires Valid()
      modifies this`entryPool, ActivePool(defaultPool), ActivePool(defaultPool).free
      ensures Valid() && LogOutcome(em, TraceLevel, args, host, defaultPool)
    {
      em := Log(TraceLevel, args, host, defaultPool);
    }

    method Debug(args: seq<Value>, host: Host, defaultPool: BufferPool) returns (em: Option<Emission>)
      requires Valid()
      modifies this`entryPool, ActivePool(defaultPool), ActivePool(defaultPool).free
      ensures Valid() && LogOutcome(em, DebugLevel, args, host, defaultPool)
    {
      em := Log(DebugLevel, args, host, defaultPool);
    }

    method Info(args: seq<Value>, host: Host, defaultPool: BufferPool) returns (em: Option<Emission>)
      requires Valid()
      modifies this`entryPool, ActivePool(defaultPool), ActivePool(defaultPool).free
      ensures Valid() && LogOutcome(em, InfoLevel, args, host, defaultPool)
    {
      em := Log(InfoLevel, args, host, defaultPool);
    }

    method Warn(args: seq<Value>, host: Host, defaultPool: BufferPool) returns (em: Option<Emission>)
      requires Valid()
      modifies this`entryPool, ActivePool(defaultPool), ActivePool(defaultPool).free
      ensures Valid() && LogOutcome(em, WarnLevel, args, host, defaultPool)
    {
      em := Log(WarnLevel, args, host, defaultPool);
    }

    /** `Warning` logs at `WarnLevel`. */
    method Warning(args: seq<Value>, host: Host, defaultPool: BufferPool) returns (em: Option<Emission>)
      requires Valid()
      modifies this`entryPool, ActivePool(defaultPool), ActivePool(defaultPool).free
      ensures Valid() && LogOutcome(em, WarnLevel, args, host, defaultPool)
    {
      em := Warn(args, host, defaultPool);
    }

    method Error(args: seq<Value>, host: Host, defaultPool: BufferPool) returns (em: Option<Emission>)
      requires Valid()
      modifies this`entryPool, ActivePool(defaultPool), ActivePool(defaultPool).free
      ensures Valid() && LogOutcome(em, ErrorLevel, args, host, defaultPool)
    {
      em := Log(ErrorLevel, args, host, defaultPool);
    }

    /** `Fatal`: logs at `FatalLevel`, then `Exit(1)` whatever the level. */
    method Fatal(args: seq<Value>, host: Host, defaultPool: BufferPool)
      returns (em: Option<Emission>, call: ExitCall)
      requires Valid()
      modifies this`entryPool, this`exitFunc, ActivePool(defaultPool), ActivePool(defaultPool).free
      ensures Valid() && LogOutcome(em, FatalLevel, args, host, defaultPool)
      ensures exitFunc == if old(exitFunc) == None then Some(OsExit) else old(exitFunc)
      ensures call == ExitCall(exitFunc.value, 1)
    {
      em := Log(FatalLevel, args, host, defaultPool);
      call := Exit(1);
    }

    /** `Panic`: logs at `PanicLevel`, which is always enabled, so it always
        panics and the borrowed entry is not returned to the pool. */
    method Panic(args: seq<Value>, host: Host, defaultPool: BufferPool) returns (em: Option<Emission>)
      requires Valid()
      modifies this`entryPool, ActivePool(defaultPool), ActivePool(defaultPool).free
      ensures Valid() && LogOutcome(em, PanicLevel, args, host, defaultPool)
      ensures em.Some? && em.value.panicked
    {
      em := Log(PanicLevel, args, host, defaultPool);
    }

    /** `Exit`: installs `os.Exit` when no exit function is set, then calls
        the exit function with `code`. The exit handlers are not run. */
    method Exit(code: int) returns (call: ExitCall)
      modifies this`exitFunc
      ensures exitFunc == if old(exitFunc) == None then Some(OsExit) else old(exitFunc)
      ensures call == ExitCall(exitFunc.value, code)
    {
      if exitFunc == None {
        exitFunc := Some(OsExit);
      }
      call := ExitCall(exitFunc.value, code);
    }

    method Setifwf(flag: bool)
      modifies this`ifwFile
      ensures ifwFile == flag
    {
      ifwFile := flag;
    }

    /** `SetFilepn(fn, fp)`: the first argument is the file name, the second
        the directory. */
    method SetFilepn(fn: string, fp: string)
      modifies this`fp, this`fn
      ensures this.fp == fp && this.fn == fn
    {
      this.fp := fp;
      this.fn := fn;
    }

    method SetmaxFileSize(size: Int64)
      modifies this`maxFileSize
      ensures maxFileSize == size
    {
      maxFileSize := size;
    }

    method SetNoLock()
      modifies this`lockDisabled
      ensures lockDisabled
    {
      lockDisabled := true;
    }

    method SetLevel(l: Level)
      modifies this`level
      ensures level == l && GetLevel() == l
    {
      level := l;
    }

    /** `level` and `GetLevel`: the configured level. */
    function GetLevel(): (l: Level)
      reads this
      ensures IsLevelEnabled(l)
      ensures forall x: Level :: IsLevelEnabled(x) <==> x <= l
    {
      level
    }

    /** `IsLevelEnabled`: records at `x` are emitted when the configured level
        is at least `x`, so a more severe level is enabled whenever a less
        severe one is. */
    function IsLevelEnabled(x: Level): (enabled: bool)
      reads this
      ensures enabled <==> x <= level
      ensures x == PanicLevel ==> enabled
    {
      level >= x
    }

    method SetFormatter(f: FormatterChoice)
      modifies this`formatter
      ensures formatter == f
    {
      formatter := f;
    }

    method SetOutput(w: Writer)
      modifies this`out
      ensures out == w
    {
      out := w;
    }

    method SetReportCaller(flag: bool)
      modifies this`reportCaller
      ensures reportCaller == flag
    {
      reportCaller := flag;
    }

    method SetBufferPool(pool: BufferPool?)
      modifies this`bufferPool
      ensures bufferPool == pool
    {
      bufferPool := pool;
    }
  }

  /** The entry pool after `newEntry` took an entry that was not given back. */
  function Borrowed(pool: seq<Entry>): (rest: seq<Entry>)
    ensures pool != [] ==> pool == rest + [pool[|pool| - 1]]
    ensures pool == [] ==> rest == []
  {
    if pool == [] then [] else pool[..|pool| - 1]
  }

  // ----- the names cutFile and zipFile build -----

  /** The name `cutFile` renames the active file to: the base name, "_", the
      time stamp and ".log". */
  function BackupName(name: string, stamp: string): (b: string)
    ensures |b| == |name| + |stamp| + 5
    ensures b[..|name|] == name && b[|name|] == '_'
    ensures b[|name| + 1..|name| + 1 + |stamp|] == stamp
    ensures b[|b| - 4..] == ".log"
  {
    name + "_" + stamp + ".log"
  }

  /** The name `zipFile` archives into: the base name and ".zip". */
  function ArchiveName(name: string): (a: string)
    ensures |a| == |name| + 4 && a[..|name|] == name && a[|name|..] == ".zip"
  {
    name + ".zip"
  }

  /** The backup name never collides with the archive name or with the file
      it was renamed from, and different stamps give different backups. */
  lemma BackupNamesDistinct(name: string, stamp: string, stamp': string)
    ensures BackupName(name, stamp) != ArchiveName(name)
    ensures BackupName(name, stamp) != name
    ensures stamp != stamp' ==> BackupName(name, stamp) != BackupName(name, stamp')
  {
    var b := BackupName(name, stamp);
    assert b[|name|] != ArchiveName(name)[|name|];
    if stamp != stamp' && |stamp| == |stamp'| {
      var b' := BackupName(name, stamp');
      assert b[|name| + 1..|name| + 1 + |stamp|] != b'[|name| + 1..|name| + 1 + |stamp'|];
    }
  }

  /** The level gate is monotone: a logger that emits records at some level
      also emits every more severe one. */
  lemma LevelGateMonotone(logger: Logger, x: Level, y: Level)
    requires y <= x && logger.IsLevelEnabled(x)
    ensures logger.IsLevelEnabled(y)
  {
  }

  /** A file exactly at the limit is kept; anything larger is rotated. */
  lemma CheckLogSizeBoundary(logger: Logger, name: string, size: Int64)
    ensures !logger.CheckLogSize(Stat(name, logger.maxFileSize))
    ensures size > logger.maxFileSize ==> logger.CheckLogSize(Stat(name, size))
    ensures !logger.CheckLogSize(StatFailed)
  {
  }
}
