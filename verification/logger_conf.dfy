/** The configuration loader of loggerconf.c: `parseLevel`, `parseLine` and
    `logger_configure`. The loader keeps its own statics (`s_logger`,
    `s_clog.output`, `s_flog`, `s_dlog`), separate from the facility's, fills
    them line by line, and then initialises the facility's sinks from them. */
module LoggerConf {
  import opened CLib
  import opened LogLevels
  import opened Sinks
  import opened ConfText
  import opened Rotation
  import opened Logger

  /** `kMaxFileNameLen` and `kMaxAddressLen`: the sizes of the loader's buffers. */
  const MaxFileNameLen: nat := 256
  const MaxAddressLen: nat := 16

  const LevelKey := "level"
  const LoggerKey := "logger"
  const OutputKey := "logger.console.output"
  const FileNameKey := "logger.file.filename"
  const MaxFileSizeKey := "logger.file.maxFileSize"
  const MaxBackupFilesKey := "logger.file.maxBackupFiles"
  const AddressKey := "logger.data.address"
  const PortKey := "logger.data.port"

  /** The keys `parseLine` recognises. */
  const Keys: set<string> :=
    {LevelKey, LoggerKey, OutputKey, FileNameKey, MaxFileSizeKey, MaxBackupFilesKey, AddressKey, PortKey}

  /** The loader's statics other than the level, which lives in the facility. */
  datatype Settings = Settings(flags: Flags, output: StreamArg, fileName: string,
                               maxFileSize: int, maxBackupFiles: UInt8, address: string, port: int)

  /** The zero-initialised statics. */
  const Unset: Settings := Settings({}, NullStream, "", 0, 0, "", 0)

  /** `parseLevel`: the level spelled `s`, or the facility's current level
      when `s` spells none. */
  function ParseLevel(s: string, current: LogLevel): (l: LogLevel)
    ensures l == current || LevelName(l) == s
  {
    if s == "TRACE" then Trace
    else if s == "DEBUG" then Debug
    else if s == "INFO" then Info
    else if s == "WARN" then Warn
    else if s == "ERROR" then Error
    else if s == "FATAL" then Fatal
    else current
  }

  /** Every level reads back from its name, and a word that names no level
      leaves the current level in place. */
  lemma ParseLevelRoundTrip(l: LogLevel, s: string, current: LogLevel)
    ensures ParseLevel(LevelName(l), current) == l
    ensures (forall m :: LevelName(m) != s) ==> ParseLevel(s, current) == current
  {
    if forall m :: LevelName(m) != s {
      assert LevelName(Trace) != s && LevelName(Debug) != s && LevelName(Info) != s;
      assert LevelName(Warn) != s && LevelName(Error) != s && LevelName(Fatal) != s;
    }
  }

  /** A key and value `parseLine` handles without undefined behaviour: a
      recognised key has a value (else `strcmp` receives NULL). */
  predicate KeyValueDefined(key: string, val: Option<string>)
  {
    key in Keys ==> val.Some?
  }

  /** A line with a key (else `strcmp` receives NULL) and a defined value. */
  predicate LineDefined(line: string)
  {
    var kv := SplitKeyValue(line);
    kv.0.Some? && KeyValueDefined(kv.0.value, kv.1)
  }

  /** The `logger` key: a known sink is ORed in, anything else clears every
      sink. A line either adds exactly one sink to those requested before it
      or leaves none. */
  function LoggerFlags(flags: Flags, val: string): (r: Flags)
    ensures r == {} || r == flags + {ConsoleLogger} || r == flags + {FileLogger}
            || r == flags + {DataLogger}
  {
    if val == "console" then flags + {ConsoleLogger}
    else if val == "file" then flags + {FileLogger}
    else if val == "data" then flags + {DataLogger}
    else {}
  }

  /** The `logger.console.output` key: anything but stdout or stderr is NULL,
      so the stream is always one `logger_initConsoleLogger` accepts. */
  function OutputStream(val: string): (r: StreamArg)
    ensures r != OtherStream
  {
    if val == "stdout" then StdoutArg else if val == "stderr" then StderrArg else NullStream
  }

  /** The `logger.file.maxBackupFiles` key: `atoi`, negatives replaced by 0,
      then stored in an `unsigned char`: a count in range is kept as read. */
  function BackupCount(val: string): (n: UInt8)
    ensures Atoi(val) < 0 ==> n == 0
    ensures 0 <= Atoi(val) < 256 ==> n == Atoi(val)
  {
    var n := Atoi(val);
    (if n < 0 then 0 else n) % 256
  }

  /** The `logger.data.port` key: `atoi` stored in an `unsigned int`, which
      keeps every port that fits. */
  function PortValue(val: string): (n: int)
    ensures 0 <= n < 0x1_0000_0000
    ensures 0 <= Atoi(val) < 0x1_0000_0000 ==> n == Atoi(val)
  {
    Atoi(val) % 0x1_0000_0000
  }

  /** The loader's statics together with the facility's level. */
  datatype Parsed = Parsed(settings: Settings, level: LogLevel)

  /** What `parseLine` does with a key and its value. `strncpy` keeps at most
      a buffer's worth of a file name or an address. An unknown key changes
      nothing; only the level key changes the level, and it changes nothing
      else; only the `logger` key changes the sinks. */
  function ApplyKeyValue(p: Parsed, key: string, val: Option<string>): (r: Parsed)
    requires KeyValueDefined(key, val)
    ensures key !in Keys ==> r == p
    ensures key == LevelKey ==> r.settings == p.settings
    ensures key != LevelKey ==> r.level == p.level
    ensures key != LoggerKey ==> r.settings.flags == p.settings.flags
  {
    var s := p.settings;
    if key == LevelKey then p.(level := ParseLevel(val.value, p.level))
    else if key == LoggerKey then p.(settings := s.(flags := LoggerFlags(s.flags, val.value)))
    else if key == OutputKey then p.(settings := s.(output := OutputStream(val.value)))
    else if key == FileNameKey then p.(settings := s.(fileName := Truncate(val.value, MaxFileNameLen)))
    else if key == MaxFileSizeKey then p.(settings := s.(maxFileSize := Atoi(val.value)))
    else if key == MaxBackupFilesKey then p.(settings := s.(maxBackupFiles := BackupCount(val.value)))
    else if key == AddressKey then p.(settings := s.(address := Truncate(val.value, MaxAddressLen)))
    else if key == PortKey then p.(settings := s.(port := PortValue(val.value)))
    else p
  }

  /** `parseLine` on one cleaned, non-empty line: only a `level` line
      changes the level, and only a `logger` line changes the sinks. */
  function ApplyLine(p: Parsed, line: string): (r: Parsed)
    requires LineDefined(line)
    ensures SplitKeyValue(line).0 != Some(LevelKey) ==> r.level == p.level
    ensures SplitKeyValue(line).0 != Some(LoggerKey) ==> r.settings.flags == p.settings.flags
  {
    var kv := SplitKeyValue(line);
    ApplyKeyValue(p, kv.0.value, kv.1)
  }

  /** A chunk `fgets` returns that `logger_configure` can process: blank after
      cleaning, or a defined line. */
  predicate Processable(chunk: string)
  {
    var line := CleanLine(chunk);
    line == [] || LineDefined(line)
  }

  /** The loop of `logger_configure` over the chunks read so far: blank lines
      are skipped, every other line goes through `parseLine`. A file of
      blank and comment lines changes nothing, and without a `logger` line
      the requested sinks stay as they were. */
  function ApplyLines(p: Parsed, chunks: seq<string>): (r: Parsed)
    requires forall i :: 0 <= i < |chunks| ==> Processable(chunks[i])
    ensures (forall i :: 0 <= i < |chunks| ==> CleanLine(chunks[i]) == []) ==> r == p
    ensures LastValue(chunks, LoggerKey).None? ==> r.settings.flags == p.settings.flags
  {
    if chunks == [] then p
    else
      var q := ApplyLines(p, chunks[..|chunks| - 1]);
      var line := CleanLine(chunks[|chunks| - 1]);
      assert Processable(chunks[|chunks| - 1]);
      if line == [] then q else ApplyLine(q, line)
  }

  /** The loop reads one more chunk. */
  lemma ApplyLinesStep(p: Parsed, chunks: seq<string>, i: nat)
    requires i < |chunks| && forall k :: 0 <= k < |chunks| ==> Processable(chunks[k])
    ensures Processable(chunks[i])
    ensures ApplyLines(p, chunks[..i + 1])
         == (var line := CleanLine(chunks[i]);
             if line == [] then ApplyLines(p, chunks[..i]) else ApplyLine(ApplyLines(p, chunks[..i]), line))
  {
    var read := chunks[..i + 1];
    assert read[..i] == chunks[..i] && read[i] == chunks[i];
  }

  /** The value of the last non-blank line with the given key, if any. */
  function LastValue(chunks: seq<string>, key: string): Option<string>
  {
    if chunks == [] then None
    else
      var line := CleanLine(chunks[|chunks| - 1]);
      var kv := SplitKeyValue(line);
      if line != [] && kv.0 == Some(key) then kv.1 else LastValue(chunks[..|chunks| - 1], key)
  }

  /** The keys whose value `parseLine` stores in a setting of its own. */
  datatype StoredKey = Output | FileName | MaxFileSize | MaxBackupFiles | Address | Port

  function KeyName(k: StoredKey): string
  {
    match k
    case Output => OutputKey
    case FileName => FileNameKey
    case MaxFileSize => MaxFileSizeKey
    case MaxBackupFiles => MaxBackupFilesKey
    case Address => AddressKey
    case Port => PortKey
  }

  /** The value of one stored setting. */
  datatype Setting = TextSetting(text: string) | StreamSetting(arg: StreamArg) | NumberSetting(n: int)

  /** The setting a stored key writes. */
  function StoredSetting(s: Settings, k: StoredKey): Setting
  {
    match k
    case Output => StreamSetting(s.output)
    case FileName => TextSetting(s.fileName)
    case MaxFileSize => NumberSetting(s.maxFileSize)
    case MaxBackupFiles => NumberSetting(s.maxBackupFiles)
    case Address => TextSetting(s.address)
    case Port => NumberSetting(s.port)
  }

  /** The setting a stored key's value becomes. */
  function SettingFrom(k: StoredKey, val: string): Setting
  {
    match k
    case Output => StreamSetting(OutputStream(val))
    case FileName => TextSetting(Truncate(val, MaxFileNameLen))
    case MaxFileSize => NumberSetting(Atoi(val))
    case MaxBackupFiles => NumberSetting(BackupCount(val))
    case Address => TextSetting(Truncate(val, MaxAddressLen))
    case Port => NumberSetting(PortValue(val))
  }

  /** The keys have pairwise different lengths, which tells them apart. */
  lemma KeyLengths()
    ensures |LevelKey| == 5 && |LoggerKey| == 6 && |OutputKey| == 21 && |FileNameKey| == 20
    ensures |MaxFileSizeKey| == 23 && |MaxBackupFilesKey| == 26 && |AddressKey| == 19 && |PortKey| == 16
  {
  }

  /** A line naming a stored key writes that key's setting from its value. */
  lemma OwnKeyWrites(q: Parsed, k: StoredKey, val: string)
    ensures StoredSetting(ApplyKeyValue(q, KeyName(k), Some(val)).settings, k) == SettingFrom(k, val)
  {
    KeyLengths();
    match k
    case Output =>
    case FileName =>
    case MaxFileSize =>
    case MaxBackupFiles =>
    case Address =>
    case Port =>
  }

  /** A line naming any other key leaves a stored key's setting alone. */
  lemma OtherKeyKeeps(q: Parsed, key: string, val: Option<string>, k: StoredKey)
    requires KeyValueDefined(key, val) && key != KeyName(k)
    ensures StoredSetting(ApplyKeyValue(q, key, val).settings, k) == StoredSetting(q.settings, k)
  {
    match k
    case Output =>
    case FileName =>
    case MaxFileSize =>
    case MaxBackupFiles =>
    case Address =>
    case Port =>
  }

  /** One line writes the setting of its own key and no other. */
  lemma StoredSettingStep(q: Parsed, key: string, val: Option<string>, k: StoredKey)
    requires KeyValueDefined(key, val)
    ensures StoredSetting(ApplyKeyValue(q, key, val).settings, k)
         == if key == KeyName(k) then SettingFrom(k, val.value) else StoredSetting(q.settings, k)
  {
    if key == KeyName(k) {
      OwnKeyWrites(q, k, val.value);
    } else {
      OtherKeyKeeps(q, key, val, k);
    }
  }

  /** For every key that stores its value, the last line naming it decides the
      setting; with no such line the setting keeps its earlier value. */
  lemma {:induction false} LastAssignmentWins(p: Parsed, chunks: seq<string>, k: StoredKey)
    requires forall i :: 0 <= i < |chunks| ==> Processable(chunks[i])
    ensures StoredSetting(ApplyLines(p, chunks).settings, k)
         == (var v := LastValue(chunks, KeyName(k));
             if v.Some? then SettingFrom(k, v.value) else StoredSetting(p.settings, k))
  {
    if chunks != [] {
      var init := chunks[..|chunks| - 1];
      var q := ApplyLines(p, init);
      LastAssignmentWins(p, init, k);
      var line := CleanLine(chunks[|chunks| - 1]);
      assert Processable(chunks[|chunks| - 1]);
      if line == [] {
        assert ApplyLines(p, chunks) == q;
        assert LastValue(chunks, KeyName(k)) == LastValue(init, KeyName(k));
      } else {
        var kv := SplitKeyValue(line);
        assert ApplyLines(p, chunks) == ApplyKeyValue(q, kv.0.value, kv.1);
        assert LastValue(chunks, KeyName(k)) == if kv.0 == Some(KeyName(k)) then kv.1 else LastValue(init, KeyName(k));
        StoredSettingStep(q, kv.0.value, kv.1, k);
      }
    }
  }

  /** A `logger` line changes the requested sinks and nothing else. */
  lemma LoggerLine(p: Parsed, val: string)
    ensures KeyValueDefined(LoggerKey, Some(val))
    ensures ApplyKeyValue(p, LoggerKey, Some(val))
         == p.(settings := p.settings.(flags := LoggerFlags(p.settings.flags, val)))
  {
  }

  /** A key that is not recognised changes nothing, whatever its value. */
  lemma UnknownKeyIgnored(p: Parsed, key: string, val: Option<string>)
    requires key !in Keys
    ensures KeyValueDefined(key, val) && ApplyKeyValue(p, key, val) == p
  {
  }

  /** Blanks around '=' are not trimmed, so a blank before '=' becomes part
      of the key, which then names nothing: `level = WARN` leaves the level
      alone. */
  lemma BlankBeforeEqualsIgnored(p: Parsed, key: string, val: string)
    requires key != [] && '=' !in key && IsSpace(key[|key| - 1])
    ensures SplitKeyValue(key + "=" + val).0 == Some(key)
    ensures LineDefined(key + "=" + val) && ApplyLine(p, key + "=" + val) == p
  {
    SplitJoin(key, val);
    if key in Keys {
      KeysEndInLetters(key);
    }
    UnknownKeyIgnored(p, key, SplitKeyValue(key + "=" + val).1);
  }

  /** No recognised key ends in a blank. */
  lemma KeysEndInLetters(key: string)
    requires key in Keys
    ensures key != [] && !IsSpace(key[|key| - 1])
  {
  }

  /** A line `key=value` with a known key sets exactly that key's setting. */
  lemma KnownKeySets(p: Parsed, key: string, val: string)
    requires key in Keys && val != [] && '=' !in val
    ensures LineDefined(key + "=" + val)
    ensures ApplyLine(p, key + "=" + val) == ApplyKeyValue(p, key, Some(val))
    ensures key == LevelKey ==> ApplyLine(p, key + "=" + val) == p.(level := ParseLevel(val, p.level))
    ensures key == FileNameKey ==>
      ApplyLine(p, key + "=" + val) == p.(settings := p.settings.(fileName := Truncate(val, MaxFileNameLen)))
    ensures key == MaxBackupFilesKey ==>
      ApplyLine(p, key + "=" + val) == p.(settings := p.settings.(maxBackupFiles := BackupCount(val)))
  {
    assert key != [] && '=' !in key;
    SplitJoin(key, val);
  }

  /** The backup count as stored: a negative number becomes 0 and a number
      past 255 wraps, so "-3" keeps no backups and "257" keeps one. */
  lemma BackupCountWraps(n: nat)
    ensures BackupCount("-" + DecimalString(n)) == 0
    ensures BackupCount(DecimalString(n)) == n % 256
  {
    AtoiOfDecimal(n);
  }

  /** A comment, and the blanks before it and at the ends, are gone by the
      time a line reaches `parseLine`. */
  lemma CleanLineDropsComment(text: string, blanks: string, comment: string)
    requires '#' !in text && NUL !in text && NUL !in blanks && '#' !in blanks
    requires text != [] && !IsSpace(text[0]) && !IsSpace(text[|text| - 1])
    requires forall k :: 0 <= k < |blanks| ==> IsSpace(blanks[k])
    requires comment != [] && comment[0] == '#'
    ensures CleanLine(text + blanks + comment) == text
  {
    CommentCut(text + blanks, comment);
    TrimAt(text + blanks, 0, |text|);
  }

  /** A chunk holding only blanks and a comment is skipped. */
  lemma CommentLineSkipped(blanks: string, comment: string)
    requires NUL !in blanks && '#' !in blanks
    requires forall k :: 0 <= k < |blanks| ==> IsSpace(blanks[k])
    requires comment != [] && comment[0] == '#'
    ensures CleanLine(blanks + comment) == []
  {
    CommentCut(blanks, comment);
    TrimIdempotent(blanks);
  }

  /** Every requested sink initialises successfully. */
  predicate AllGranted(s: Settings, fileOpenOk: bool, socketReady: bool)
  {
    && (HasFlag(s.flags, ConsoleLogger) ==> s.output != OtherStream)
    && (HasFlag(s.flags, FileLogger) ==> fileOpenOk)
    && (HasFlag(s.flags, DataLogger) ==> socketReady)
  }

  /** What `logger_configure` reports once the lines are read: at least one
      sink was requested and every requested initialisation succeeded. */
  predicate Accepts(s: Settings, fileOpenOk: bool, socketReady: bool)
  {
    s.flags != {} && AllGranted(s, fileOpenOk, socketReady)
  }

  /** The sinks whose initialisation succeeds. */
  function Granted(s: Settings, fileOpenOk: bool, socketReady: bool): Flags
  {
    (if HasFlag(s.flags, ConsoleLogger) && s.output != OtherStream then {ConsoleLogger} else {})
    + (if HasFlag(s.flags, FileLogger) && fileOpenOk then {FileLogger} else {})
    + (if HasFlag(s.flags, DataLogger) && socketReady then {DataLogger} else {})
  }

  /** Every requested sink succeeds exactly when the sinks granted are the
      sinks requested. */
  lemma AllGrantedIffGranted(s: Settings, fileOpenOk: bool, socketReady: bool)
    ensures AllGranted(s, fileOpenOk, socketReady) <==> Granted(s, fileOpenOk, socketReady) == s.flags
  {
    var g := Granted(s, fileOpenOk, socketReady);
    if AllGranted(s, fileOpenOk, socketReady) {
      forall x
        ensures x in g <==> x in s.flags
      {
        match x
        case ConsoleLogger =>
        case FileLogger =>
        case DataLogger =>
      }
    } else if HasFlag(s.flags, ConsoleLogger) && s.output == OtherStream {
      assert ConsoleLogger !in g;
    }
  }

  /** The file name and the address a requested sink is initialised from are
      terminated C strings. `strncpy` leaves a buffer without a terminator
      when the value fills it, and the initialisation then reads past the
      end of the buffer. */
  predicate SinkArgsDefined(s: Settings)
  {
    && (HasFlag(s.flags, FileLogger) ==> |s.fileName| < MaxFileNameLen)
    && (HasFlag(s.flags, DataLogger) ==> |s.address| < MaxAddressLen)
  }

  /** The facility after `logger_configure` initialised the sinks `s`
      requests, in the order console, file, data: it gains exactly the
      granted sinks; each requested sink's state is what its initialisation
      makes of it; everything else is left as it was. */
  twostate predicate SinksInitialised(facility: LoggerFacility, s: Settings, fileOpenOk: bool, socketOk: bool)
    reads facility
  {
    var console := HasFlag(s.flags, ConsoleLogger) && s.output != OtherStream;
    var data := HasFlag(s.flags, DataLogger) && facility.socketOpen;
    && facility.flags == old(facility.flags) + Granted(s, fileOpenOk, old(facility.socketOpen) || socketOk)
    && facility.initialized
       == (old(facility.initialized) || console || HasFlag(s.flags, FileLogger) || HasFlag(s.flags, DataLogger))
    && facility.clog == (if console then old(facility.clog).(output := ConsoleStream(s.output)) else old(facility.clog))
    && FileState(facility.flog, facility.files)
       == (if HasFlag(s.flags, FileLogger)
           then InitFileSink(old(FileState(facility.flog, facility.files)),
                             s.fileName, s.maxFileSize, s.maxBackupFiles, fileOpenOk)
           else old(FileState(facility.flog, facility.files)))
    && facility.socketOpen == (old(facility.socketOpen) || (HasFlag(s.flags, DataLogger) && socketOk))
    && (data ==> facility.dataAddress == s.address && facility.dataPort == s.port % 0x1_0000)
    && (!data ==> facility.dataAddress == old(facility.dataAddress) && facility.dataPort == old(facility.dataPort))
    && facility.terminal == old(facility.terminal)
  }

  /** One pass of the `fgets` loop before `parseLine`: the chunk, with the
      terminator `fgets` adds, is stripped of its comment and trimmed in
      place; the buffer then holds the cleaned line, and starts with the
      terminator exactly when that line is blank. */
  method CleanChunk(chunk: string) returns (buf: array<char>)
    ensures buf.Length >= 1 && NUL in buf[..]
    ensures CStr(buf[..]) == CleanLine(chunk)
    ensures (buf[0] == NUL) == (CleanLine(chunk) == [])
  {
    buf := new char[|chunk| + 1](k => if 0 <= k < |chunk| then chunk[k] else NUL);
    assert buf[..] == chunk + [NUL];
    CStrOfTerminated(chunk);
    ghost var raw := buf[..];
    RemoveComments(buf);
    ghost var cut := buf[..];
    assert cut[CLen(raw)] == NUL;
    TrimInPlace(buf);
    TrimBufferHoldsTrim(cut);
  }

  /** The statics of loggerconf.c. */
  class ConfigLoader {
    var flags: Flags             // s_logger
    var output: StreamArg        // s_clog.output
    var fileName: string         // s_flog.filename
    var maxFileSize: int         // s_flog.maxFileSize
    var maxBackupFiles: UInt8    // s_flog.maxBackupFiles
    var address: string          // s_dlog.address
    var port: int                // s_dlog.port

    function Snapshot(): Settings
      reads this
    {
      Settings(flags, output, fileName, maxFileSize, maxBackupFiles, address, port)
    }

    constructor ()
      ensures Snapshot() == Unset
    {
      flags := {};
      output := NullStream;
      fileName := "";
      maxFileSize := 0;
      maxBackupFiles := 0;
      address := "";
      port := 0;
    }

    /** `parseLine`, proved against `ApplyLine`; the level goes straight to
        the facility through `logger_setLevel`. */
    method ParseLine(facility: LoggerFacility, line: string)
      requires LineDefined(line)
      modifies this, facility`threshold
      ensures Parsed(Snapshot(), facility.threshold)
           == ApplyLine(Parsed(old(Snapshot()), old(facility.threshold)), line)
    {
      var kv := SplitKeyValue(line);
      var key := kv.0.value;
      if key == LevelKey {
        facility.SetLevel(ParseLevel(kv.1.value, facility.threshold));
      } else if key == LoggerKey {
        ParseSink(kv.1.value);
      } else if key == OutputKey {
        ParseOutput(kv.1.value);
      } else if key == FileNameKey {
        fileName := Truncate(kv.1.value, MaxFileNameLen);
      } else if key == MaxFileSizeKey {
        maxFileSize := Atoi(kv.1.value);
      } else if key == MaxBackupFilesKey {
        var n := Atoi(kv.1.value);
        if n < 0 {
          n := 0;
        }
        maxBackupFiles := n % 256;
      } else if key == AddressKey {
        address := Truncate(kv.1.value, MaxAddressLen);
      } else if key == PortKey {
        port := Atoi(kv.1.value) % 0x1_0000_0000;
      }
    }

    /** The `logger` branch of `parseLine`, proved against `LoggerFlags`. */
    method ParseSink(val: string)
      modifies this`flags
      ensures flags == LoggerFlags(old(flags), val)
    {
      if val == "console" {
        flags := flags + {ConsoleLogger};
      } else if val == "file" {
        flags := flags + {FileLogger};
      } else if val == "data" {
        flags := flags + {DataLogger};
      } else {
        flags := {};
      }
    }

    /** The `logger.console.output` branch of `parseLine`, proved against `OutputStream`. */
    method ParseOutput(val: string)
      modifies this`output
      ensures output == OutputStream(val)
    {
      if val == "stdout" {
        output := StdoutArg;
      } else if val == "stderr" {
        output := StderrArg;
      } else {
        output := NullStream;
      }
    }

    /** The `fgets` loop of `logger_configure`, proved against `ApplyLines`:
        each chunk is cleaned in a buffer of its own and handed to
        `parseLine` unless blank. */
    method ReadLines(facility: LoggerFacility, chunks: seq<string>)
      requires forall i :: 0 <= i < |chunks| ==> Processable(chunks[i])
      modifies this, facility`threshold
      ensures Parsed(Snapshot(), facility.threshold)
           == ApplyLines(Parsed(old(Snapshot()), old(facility.threshold)), chunks)
    {
      ghost var start := Parsed(Snapshot(), facility.threshold);
      var i := 0;
      while i < |chunks|
        invariant 0 <= i <= |chunks|
        invariant Parsed(Snapshot(), facility.threshold) == ApplyLines(start, chunks[..i])
      {
        var buf := CleanChunk(chunks[i]);
        ApplyLinesStep(start, chunks, i);
        if buf[0] != NUL {
          ParseLine(facility, CStr(buf[..]));
        }
        i := i + 1;
      }
      assert chunks[..|chunks|] == chunks;
    }

    /** The second half of `logger_configure`: each sink the statics request
        is initialised in turn, every one even after an earlier failure; the
        result is the conjunction of the initialisations. */
    method InitSinks(facility: LoggerFacility, fileOpenOk: bool, socketOk: bool) returns (ok: bool)
      requires facility.Valid() && SinkArgsDefined(Snapshot())
      modifies facility
      ensures facility.Valid()
      ensures ok == AllGranted(Snapshot(), fileOpenOk, old(facility.socketOpen) || socketOk)
      ensures SinksInitialised(facility, Snapshot(), fileOpenOk, socketOk)
      ensures facility.threshold == old(facility.threshold)
    {
      ok := true;
      if HasFlag(flags, ConsoleLogger) {
        ok := facility.InitConsoleLogger(output);
      }
      if HasFlag(flags, FileLogger) {
        var fileOk := facility.InitFileLogger(fileName, maxFileSize, maxBackupFiles, fileOpenOk);
        ok := ok && fileOk;
      }
      if HasFlag(flags, DataLogger) {
        var dataOk := facility.InitDataLogger(address, port, socketOk);
        ok := ok && dataOk;
      }
    }

    /** `logger_configure`. `content` is what `fgets` yields from the file,
        or None when the file cannot be opened; `fileOpenOk` and `socketOk`
        decide the sink initialisations. The lines set the loader's statics
        and the facility's level; the requested sinks are then initialised;
        the result is success when a sink was requested and all requested
        ones succeeded, and only then are the loader's sink flags cleared. */
    method Configure(facility: LoggerFacility, content: Option<seq<string>>,
                     fileOpenOk: bool, socketOk: bool) returns (ok: bool)
      requires facility.Valid()
      requires content.Some? ==> forall i :: 0 <= i < |content.value| ==> Processable(content.value[i])
      requires content.Some? ==>
        SinkArgsDefined(ApplyLines(Parsed(Snapshot(), facility.threshold), content.value).settings)
      modifies this, facility
      ensures facility.Valid()
      ensures content.None? ==> !ok && Snapshot() == old(Snapshot()) && unchanged(facility)
      ensures content.Some? ==>
        var p := ApplyLines(Parsed(old(Snapshot()), old(facility.threshold)), content.value);
        && facility.threshold == p.level
        && SinksInitialised(facility, p.settings, fileOpenOk, socketOk)
        && ok == Accepts(p.settings, fileOpenOk, old(facility.socketOpen) || socketOk)
        && Snapshot() == (if ok then p.settings.(flags := {}) else p.settings)
    {
      if content.None? {
        return false;
      }
      ReadLines(facility, content.value);
      ok := InitSinks(facility, fileOpenOk, socketOk);
      if flags == {} || !ok {
        return false;
      }
      flags := {};
      ok := true;
    }
  }
}
