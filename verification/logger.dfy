/** The logging facility of logger.c: the process-wide state (`s_logger`,
    `s_logLevel`, `s_initialized`, `s_clog`, `s_flog`, the data socket) as one
    object, with the initialisation entry points, the rotation and the write
    path of `logger_log`. Each public method is one step taken under the
    facility's lock. */
module Logger {
  import opened CLib
  import opened LogLevels
  import opened Sinks
  import opened LineFormat
  import opened Rotation

  /** `s_clog`: the stream and its last flush time. */
  datatype ConsoleSink = ConsoleSink(output: Stream, flushTime: TimeVal)

  /** The records the console sink has written so far to the two standard
      streams. The diagnostics the C code prints to stderr on a failure are
      not part of it. */
  datatype Terminal = Terminal(out: string, err: string)
  {
    function Text(s: Stream): string
    {
      if s == Stdout then out else err
    }

    /** Appends to one stream and leaves the other as it was. */
    function Write(s: Stream, text: string): (t: Terminal)
      ensures t.Text(s) == Text(s) + text
      ensures forall u: Stream :: u != s ==> t.Text(u) == Text(u)
    {
      if s == Stdout then this.(out := out + text) else this.(err := err + text)
    }
  }

  /** The stream `logger_initConsoleLogger` settles on: NULL means stdout. */
  function ConsoleStream(output: StreamArg): Stream
  {
    if output == StderrArg then Stderr else Stdout
  }

  class LoggerFacility {
    var initialized: bool   // s_initialized
    var flags: Flags        // s_logger
    var threshold: LogLevel // s_logLevel
    var clog: ConsoleSink   // s_clog
    var terminal: Terminal  // what stdout and stderr have received
    var flog: FileSink      // s_flog
    var files: FileSystem   // the files the sink reads and writes
    var socketOpen: bool    // s_dlog.fd != -1
    var dataAddress: string // the address s_dlog.sockaddr is set from
    var dataPort: int       // s_dlog.sockaddr.sin_port

    /** The file sink's invariant, and no sink is active before `init()` ran. */
    ghost predicate Valid()
      reads this
    {
      SinkValid(FileState(flog, files)) && (flags != {} ==> initialized)
    }

    /** The zero-initialised statics: no sink, threshold INFO, no handle, no socket. */
    constructor (disk: FileSystem)
      ensures Valid() && !initialized && flags == {} && threshold == DefaultLevel
      ensures clog == ConsoleSink(Stdout, TimeVal(0, 0)) && terminal == Terminal([], [])
      ensures flog == ClosedSink && files == disk && !socketOpen
      ensures dataAddress == [] && dataPort == 0
    {
      initialized := false;
      flags := {};
      threshold := DefaultLevel;
      clog := ConsoleSink(Stdout, TimeVal(0, 0));
      terminal := Terminal([], []);
      flog := ClosedSink;
      files := disk;
      socketOpen := false;
      dataAddress := [];
      dataPort := 0;
    }

    /** `init`: the one-time setup (the lock itself is not modelled). */
    method Init()
      modifies this`initialized
      ensures initialized
    {
      if !initialized {
        initialized := true;
      }
    }

    /** `logger_setLevel`. */
    method SetLevel(level: LogLevel)
      modifies this`threshold
      ensures threshold == level
    {
      threshold := level;
    }

    /** `logger_initConsoleLogger`: NULL selects stdout; any stream other than
        stdout and stderr is refused and changes nothing; otherwise the stream
        is recorded and the console flag ORed in. */
    method InitConsoleLogger(output: StreamArg) returns (ok: bool)
      requires Valid()
      modifies this
      ensures Valid()
      ensures ok <==> output != OtherStream
      ensures !ok ==> unchanged(this)
      ensures ok ==> initialized && flags == old(flags) + {ConsoleLogger}
                     && clog == old(clog).(output := ConsoleStream(output))
      ensures threshold == old(threshold) && terminal == old(terminal)
      ensures flog == old(flog) && files == old(files) && socketOpen == old(socketOpen)
      ensures dataAddress == old(dataAddress) && dataPort == old(dataPort)
    {
      if output == OtherStream {
        return false;
      }
      Init();
      clog := clog.(output := ConsoleStream(output));
      flags := flags + {ConsoleLogger};
      ok := true;
    }

    /** `fclose(s_flog.output)`, only ever called on an open handle. */
    method CloseOutput()
      requires flog.open
      modifies this`flog
      ensures flog == old(flog).(open := false)
    {
      flog := flog.(open := false);
    }

    /** `logger_initFileLogger`: the file sink becomes `InitFileSink` of the old
        one; the file flag is ORed in only when the open succeeds and is never
        cleared. */
    method InitFileLogger(filename: string, maxFileSize: int, maxBackupFiles: UInt8, openOk: bool)
      returns (ok: bool)
      requires Valid()
      modifies this
      ensures Valid() && initialized
      ensures ok == openOk
      ensures FileState(flog, files)
           == InitFileSink(old(FileState(flog, files)), filename, maxFileSize, maxBackupFiles, openOk)
      ensures flags == if ok then old(flags) + {FileLogger} else old(flags)
      ensures threshold == old(threshold) && clog == old(clog) && terminal == old(terminal)
      ensures socketOpen == old(socketOpen) && dataAddress == old(dataAddress) && dataPort == old(dataPort)
    {
      Init();
      if flog.open {
        CloseOutput();
      }
      if !openOk {
        return false;
      }
      files := OpenForAppend(files, filename);
      flog := flog.(open := true, path := filename,
                    currentFileSize := FileSize(files, filename),
                    name := Truncate(filename, MaxNameLen),
                    maxFileSize := if maxFileSize > 0 then maxFileSize else DefaultMaxFileSize,
                    maxBackupFiles := maxBackupFiles);
      flags := flags + {FileLogger};
      ok := true;
    }

    /** `logger_initDataLogger`: the socket is created at most once
        (`socketOk` says whether creation succeeds); without a socket nothing
        but the initialisation happens, with one the target address and the
        port, cut to the 16 bits `htons` takes, are recorded and the data flag
        ORed in. */
    method InitDataLogger(address: string, port: int, socketOk: bool) returns (ok: bool)
      requires Valid()
      modifies this
      ensures Valid() && initialized
      ensures ok == (old(socketOpen) || socketOk) && socketOpen == ok
      ensures flags == if ok then old(flags) + {DataLogger} else old(flags)
      ensures ok ==> dataAddress == address && dataPort == port % 0x1_0000
      ensures !ok ==> dataAddress == old(dataAddress) && dataPort == old(dataPort)
      ensures threshold == old(threshold) && clog == old(clog) && terminal == old(terminal)
      ensures flog == old(flog) && files == old(files)
    {
      Init();
      if !socketOpen {
        if !socketOk {
          return false;
        }
        socketOpen := true;
      }
      dataAddress := address;
      dataPort := port % 0x1_0000;
      flags := flags + {DataLogger};
      ok := true;
    }

    /** `remove(path)`: 0 with the file gone, or -1 with nothing changed. */
    method RemoveFile(path: string, fails: bool) returns (status: int)
      modifies this`files
      ensures (status == 0) == !fails
      ensures files == if fails then old(files) else old(files) - {path}
    {
      if fails {
        return -1;
      }
      files := files - {path};
      status := 0;
    }

    /** `rename(src, dst)`: 0 with the contents moved (replacing `dst`), or -1
        with nothing changed. */
    method RenameFile(src: string, dst: string, fails: bool) returns (status: int)
      requires src in files
      modifies this`files
      ensures (status == 0) == !fails
      ensures files == if fails then old(files) else (old(files) - {src})[dst := old(files)[src]]
    {
      if fails {
        return -1;
      }
      files := (files - {src})[dst := files[src]];
      status := 0;
    }

    /** `rotateLogFiles`, proved against `Rotate`: below the limit it reports
        whether the handle is open; otherwise it closes the handle (when open),
        runs the countdown from `maxBackupFiles` to 1 and reopens the base name. */
    method RotateLogFiles(o: FsOracle) returns (writable: bool)
      requires Valid()
      modifies this`flog, this`files
      ensures Valid()
      ensures Rotated(FileState(flog, files), writable) == Rotate(old(FileState(flog, files)), o)
    {
      if flog.currentFileSize < flog.maxFileSize {
        return flog.open;
      }
      if flog.open {
        CloseOutput();
      }
      var i: int := flog.maxBackupFiles;
      while i > 0
        invariant 0 <= i <= flog.maxBackupFiles
        invariant flog == old(flog).(open := false)
        invariant ShiftChain(files, flog.name, i, o)
               == ShiftChain(old(files), flog.name, flog.maxBackupFiles, o)
      {
        ghost var before := files;
        ShiftSlot(i, o);
        ShiftChainFirstPass(before, files, flog.name, i, o);
        i := i - 1;
      }
      if !o.reopenOk {
        return false;
      }
      files := OpenForAppend(files, flog.name);
      flog := flog.(open := true, path := flog.name, currentFileSize := FileSize(files, flog.name));
      writable := true;
    }

    /** `vflog` on the console stream. */
    method WriteConsole(rec: Record, wo: WriteOutcome)
      modifies this`terminal, this`clog
      ensures terminal == old(terminal).Write(clog.output, Emitted(rec, wo))
      ensures clog == old(clog).(flushTime := NextFlush(rec.now, old(clog.flushTime)))
    {
      terminal := terminal.Write(clog.output, Emitted(rec, wo));
      if ShouldFlush(rec.now, clog.flushTime) {
        clog := clog.(flushTime := rec.now);
      }
    }

    /** `s_flog.currentFileSize += vflog(s_flog.output, ...)`, proved against `Append`. */
    method AppendRecord(rec: Record, wo: WriteOutcome)
      requires Valid() && flog.open
      modifies this`flog, this`files
      ensures Valid()
      ensures FileState(flog, files) == Append(old(FileState(flog, files)), rec, wo)
    {
      var size := ByteCount(rec, wo);
      files := files[flog.path := files[flog.path] + Emitted(rec, wo)];
      if ShouldFlush(rec.now, flog.flushTime) {
        flog := flog.(flushTime := rec.now);
      }
      flog := flog.(currentFileSize := flog.currentFileSize + size);
    }

    /** One pass of the countdown in `rotateLogFiles`, proved against
        `ShiftStep`: remove `name.{i}` if it exists, then rename
        `name.{i-1}` to `name.{i}` if that exists. */
    method ShiftSlot(i: int, o: FsOracle)
      requires 1 <= i <= 255
      modifies this`files
      ensures files == ShiftStep(old(files), flog.name, i, o)
    {
      var src := BackupName(flog.name, i - 1);
      var dst := BackupName(flog.name, i);
      if dst in files {
        var status := RemoveFile(dst, i in o.failedRemoves);
      }
      if src in files {
        var status := RenameFile(src, dst, i in o.failedRenames);
      }
    }

    /** The facility passes a record of this level to its sinks. */
    ghost predicate Admits(level: LogLevel)
      reads this
    {
      flags != {} && initialized && IsEnabled(threshold, level)
    }

    /** `logger_log`. Nothing happens when no sink is active, the facility was
        never initialised, or the threshold suppresses the level. Otherwise the
        record goes once to the console stream, if that sink is active, and
        once through `WriteRecord` to the file sink, if that is active; the
        flags, the threshold and the socket are left alone. */
    method Log(level: LogLevel, context: string, message: string, now: TimeVal,
               consoleOutcome: WriteOutcome, fileOutcome: WriteOutcome, o: FsOracle)
      requires Valid()
      modifies this
      ensures Valid()
      ensures !old(Admits(level)) ==> unchanged(this)
      ensures old(Admits(level)) ==>
        var rec := Record(level, context, message, now);
        && flags == old(flags) && threshold == old(threshold)
        && initialized == old(initialized) && socketOpen == old(socketOpen)
        && dataAddress == old(dataAddress) && dataPort == old(dataPort)
        && (HasFlag(flags, ConsoleLogger) ==>
              terminal == old(terminal).Write(old(clog.output), Emitted(rec, consoleOutcome))
              && clog == old(clog).(flushTime := NextFlush(now, old(clog.flushTime))))
        && (!HasFlag(flags, ConsoleLogger) ==> terminal == old(terminal) && clog == old(clog))
        && (HasFlag(flags, FileLogger) ==>
              FileState(flog, files) == WriteRecord(old(FileState(flog, files)), rec, o, fileOutcome))
        && (!HasFlag(flags, FileLogger) ==> flog == old(flog) && files == old(files))
    {
      if flags == {} || !initialized {
        return;
      }
      if !IsEnabled(threshold, level) {
        return;
      }
      var rec := Record(level, context, message, now);
      if HasFlag(flags, ConsoleLogger) {
        WriteConsole(rec, consoleOutcome);
      }
      if HasFlag(flags, FileLogger) {
        var writable := RotateLogFiles(o);
        if writable {
          AppendRecord(rec, fileOutcome);
        }
      }
    }
  }

  /** The set-up of the multi-sink scenario: a console sink on stdout and a
      file sink on a new "file.log" with the default limits. */
  method ConsoleAndFileFacility() returns (facility: LoggerFacility)
    ensures fresh(facility) && facility.Valid()
    ensures facility.flags == {ConsoleLogger, FileLogger} && facility.initialized
    ensures facility.threshold == DefaultLevel
    ensures facility.clog.output == Stdout && facility.terminal == Terminal([], [])
    ensures facility.flog.open && facility.flog.path == "file.log"
    ensures facility.flog.currentFileSize == 0 && facility.flog.maxFileSize == DefaultMaxFileSize
    ensures facility.files == map["file.log" := []]
  {
    facility := new LoggerFacility(map[]);
    var ok := facility.InitConsoleLogger(StdoutArg);
    assert ok;
    ok := facility.InitFileLogger("file.log", 0, 0, true);
    assert ok;
  }

  /** The multi-sink scenario: on that facility, one TRACE, one DEBUG and one
      INFO record under the default threshold. Each sink receives exactly the
      INFO line, once. */
  method MultiSinkScenario(context: string, now: TimeVal) returns (console: string, logFile: string)
    requires '\n' !in context
    ensures console == logFile == Line(Record(Info, context, "message", now))
    ensures console[0] == 'I' && multiset(console)['\n'] == 1
  {
    var facility := ConsoleAndFileFacility();
    var fine := FsOracle({}, {}, true);
    facility.Log(Trace, context, "message", now, AllWritten, AllWritten, fine);
    facility.Log(Debug, context, "message", now, AllWritten, AllWritten, fine);
    var rec := Record(Info, context, "message", now);
    assert facility.Admits(Info) && HasFlag(facility.flags, ConsoleLogger) && HasFlag(facility.flags, FileLogger);
    ghost var before := FileState(facility.flog, facility.files);
    facility.Log(Info, context, "message", now, AllWritten, AllWritten, fine);
    assert facility.terminal == Terminal([], []).Write(Stdout, Emitted(rec, AllWritten));
    assert FileState(facility.flog, facility.files) == WriteRecord(before, rec, fine, AllWritten);
    WriteBelowLimitAppends(before, rec, fine, AllWritten);
    assert facility.files == map["file.log" := Emitted(rec, AllWritten)];
    CompleteWriteIsOneLine(rec);
    console := facility.terminal.out;
    logFile := facility.files["file.log"];
  }
}
