/** The file sink `s_flog` and its rotation: backup names, the countdown loop
    that shifts `base.{i-1}` to `base.{i}`, the reopen, the size accounting of
    a write, and the initialisation of the sink. The file system is a map from
    path to contents; removes, renames and opens that may fail are decided by
    an oracle. */
module Rotation {
  import opened CLib
  import opened LineFormat

  /** The files the logger can see: path to contents. */
  type FileSystem = map<string, string>

  /** `kMaxFileNameLen - 1`: the longest name `s_flog.filename` keeps. */
  const MaxNameLen: nat := 255

  /** `kDefaultMaxFileSize`: 1 MiB. */
  const DefaultMaxFileSize: int := 1048576

  // ----- Backup names -----

  /** `getBackupFileName`: at most 255 characters of the base name, then, unless
      the index is 0, a dot and the index in decimal. Every name starts with
      the kept part of the base and is at most four characters longer. */
  function BackupName(base: string, index: UInt8): (r: string)
    ensures var b := Truncate(base, MaxNameLen);
      |b| <= |r| <= |b| + 4 && r[..|b|] == b && (index == 0 <==> |r| == |b|)
  {
    DecimalStringLength(index);
    var b := Truncate(base, MaxNameLen);
    if index == 0 then b else b + "." + DecimalString(index)
  }

  /** For a base name the sink can hold, slot 0 is the base file itself and
      every other slot is the base, a dot and the index in decimal. */
  lemma BackupNameShape(base: string, index: UInt8)
    requires |base| <= MaxNameLen
    ensures index == 0 ==> BackupName(base, index) == base
    ensures index > 0 ==> BackupName(base, index) == base + "." + DecimalString(index)
  {
  }

  /** Distinct indices give distinct names, so the slots of a chain never collide. */
  lemma BackupNamesDistinct(base: string, i: UInt8, j: UInt8)
    requires i != j
    ensures BackupName(base, i) != BackupName(base, j)
  {
    var b := Truncate(base, MaxNameLen);
    if i != 0 && j != 0 && BackupName(base, i) == BackupName(base, j) {
      assert BackupName(base, i)[|b| + 1..] == DecimalString(i);
      assert BackupName(base, j)[|b| + 1..] == DecimalString(j);
      DecimalStringInjective(i, j);
    }
  }

  /** Bytes `sprintf` stores for a backup name: the characters and the terminator. */
  function NameBytes(base: string, index: UInt8): nat
  {
    |BackupName(base, index) | + 1
  }

  /** As written, `getBackupFileName` allocates `strlen(basename) + 4` bytes. */
  function AllocatedNameSize(base: string): nat
  {
    |base| + 4
  }

  /** For the names the logger builds (at most 255 characters), the allocation
      fits indices below 100 and is one byte short for every index from 100 to
      255, where `".100"` and its terminator need five bytes beyond the base. */
  lemma BackupNameOverflow(base: string, index: UInt8)
    requires |base| <= MaxNameLen
    ensures index < 100 ==> NameBytes(base, index) <= AllocatedNameSize(base)
    ensures index >= 100 ==> NameBytes(base, index) == AllocatedNameSize(base) + 1
  {
    DecimalStringLength(index);
  }

  /** The evidently intended allocation: room for `"." + "255"` and the terminator. */
  function CorrectedNameSize(base: string): nat
  {
    |Truncate(base, MaxNameLen)| + 5
  }

  /** The corrected allocation holds every backup name the countdown can ask for. */
  lemma BackupNameFits(base: string, index: UInt8)
    ensures NameBytes(base, index) <= CorrectedNameSize(base)
  {
    DecimalStringLength(index);
  }

  // ----- The countdown loop -----

  /** Which removes and renames of the countdown fail (by loop index), and
      whether the final reopen succeeds. A failing call leaves the files as
      they were. */
  datatype FsOracle = FsOracle(failedRemoves: set<int>, failedRenames: set<int>, reopenOk: bool)

  predicate NoShiftFailures(o: FsOracle)
  {
    o.failedRemoves == {} && o.failedRenames == {}
  }

  /** One pass of the loop for index i: remove `base.{i}` if it exists, then
      rename `base.{i-1}` to `base.{i}` if that exists. Whatever fails, no
      file other than those two is touched. */
  function ShiftStep(fs: FileSystem, base: string, i: int, o: FsOracle): (r: FileSystem)
    requires 1 <= i <= 255
    ensures forall p :: p != BackupName(base, i) && p != BackupName(base, i - 1) ==>
              (p in r <==> p in fs) && (p in fs ==> r[p] == fs[p])
  {
    var src := BackupName(base, i - 1);
    var dst := BackupName(base, i);
    var afterRemove := if dst in fs && i !in o.failedRemoves then fs - {dst} else fs;
    if src in afterRemove && i !in o.failedRenames
    then (afterRemove - {src})[dst := afterRemove[src]]
    else afterRemove
  }

  /** The loop `for (i = n; i > 0; i--)`: passes n, n-1, ..., 1 in that order. */
  function ShiftChain(fs: FileSystem, base: string, n: int, o: FsOracle): FileSystem
    requires 0 <= n <= 255
    decreases n
  {
    if n == 0 then fs else ShiftChain(ShiftStep(fs, base, n, o), base, n - 1, o)
  }

  /** Whatever fails, the countdown from n touches no file outside the slots
      `base` .. `base.n`. */
  lemma {:induction false} ShiftChainLeavesOthers(fs: FileSystem, base: string, n: int, o: FsOracle, p: string)
    requires 0 <= n <= 255 && !InChain(base, n, p)
    ensures var r := ShiftChain(fs, base, n, o);
      (p in r <==> p in fs) && (p in fs ==> r[p] == fs[p])
    decreases n
  {
    if n > 0 {
      assert p != BackupName(base, n) && p != BackupName(base, n - 1);
      ShiftChainLeavesOthers(ShiftStep(fs, base, n, o), base, n - 1, o, p);
    }
  }

  /** The countdown from n is its pass for n followed by the countdown from n-1. */
  lemma ShiftChainFirstPass(fs: FileSystem, next: FileSystem, base: string, n: int, o: FsOracle)
    requires 1 <= n <= 255 && next == ShiftStep(fs, base, n, o)
    ensures ShiftChain(fs, base, n, o) == ShiftChain(next, base, n - 1, o)
  {
  }

  /** `p` is one of the slots `base`, `base.1`, ..., `base.n`. */
  predicate InChain(base: string, n: int, p: string)
  {
    exists j: UInt8 :: j <= n && p == BackupName(base, j)
  }

  /** A successful pass moves slot i-1 into slot i (dropping what slot i held),
      empties slot i-1 and touches nothing else. */
  lemma ShiftStepMoves(fs: FileSystem, base: string, i: int, o: FsOracle)
    requires 1 <= i <= 255 && NoShiftFailures(o)
    ensures var r := ShiftStep(fs, base, i, o);
      && (BackupName(base, i) in r <==> BackupName(base, i - 1) in fs)
      && (BackupName(base, i - 1) in fs ==> r[BackupName(base, i)] == fs[BackupName(base, i - 1)])
      && BackupName(base, i - 1) !in r
      && (forall p :: p != BackupName(base, i) && p != BackupName(base, i - 1) ==>
            (p in r <==> p in fs) && (p in fs ==> r[p] == fs[p]))
  {
    BackupNamesDistinct(base, i, i - 1);
  }

  /** Slot n lies outside the chain 0..n-1 that the rest of the loop touches. */
  lemma TopSlotOutsideRest(base: string, n: int)
    requires 1 <= n <= 255
    ensures !InChain(base, n - 1, BackupName(base, n))
  {
    forall j: UInt8 | j <= n - 1
      ensures BackupName(base, n) != BackupName(base, j)
    {
      BackupNamesDistinct(base, n, j);
    }
  }

  /** When every remove and rename succeeds, the countdown from n moves the old
      contents of each slot j-1 into slot j for 1 <= j <= n, so the old slot n
      is evicted and nothing is destroyed before it has been moved; the base
      slot ends up empty. */
  lemma {:induction false} ShiftChainMovesEverySlot(fs: FileSystem, base: string, n: int, o: FsOracle)
    requires 0 <= n <= 255 && NoShiftFailures(o)
    ensures var r := ShiftChain(fs, base, n, o);
      && (forall j: UInt8 :: 1 <= j <= n ==>
            (BackupName(base, j) in r <==> BackupName(base, j - 1) in fs))
      && (forall j: UInt8 :: 1 <= j <= n && BackupName(base, j - 1) in fs ==>
            r[BackupName(base, j)] == fs[BackupName(base, j - 1)])
      && (n >= 1 ==> BackupName(base, 0) !in r)
    decreases n
  {
    if n > 0 {
      var fs1 := ShiftStep(fs, base, n, o);
      var r := ShiftChain(fs, base, n, o);
      assert r == ShiftChain(fs1, base, n - 1, o);
      ShiftStepMoves(fs, base, n, o);
      ShiftChainMovesEverySlot(fs1, base, n - 1, o);
      TopSlotOutsideRest(base, n);
      ShiftChainLeavesOthers(fs1, base, n - 1, o, BackupName(base, n));
      var top, below := BackupName(base, n), BackupName(base, n - 1);
      assert (top in r <==> below in fs) && (below in fs ==> r[top] == fs[below]);
      assert n == 1 ==> r == fs1;
      assert BackupName(base, 0) !in r;
      forall j: UInt8 | 1 <= j < n
        ensures (BackupName(base, j) in r <==> BackupName(base, j - 1) in fs)
        ensures BackupName(base, j - 1) in fs ==> r[BackupName(base, j)] == fs[BackupName(base, j - 1)]
      {
        BackupNamesDistinct(base, j - 1, n);
        BackupNamesDistinct(base, j - 1, n - 1);
      }
    }
  }

  // ----- The file sink -----

  /** `s_flog`: whether the handle is open, the path the open handle appends
      to, the configured name (at most 255 characters), the limits, the bytes
      written so far and the last flush time. */
  datatype FileSink = FileSink(
    open: bool,
    path: string,
    name: string,
    maxFileSize: int,
    maxBackupFiles: UInt8,
    currentFileSize: int,
    flushTime: TimeVal)

  /** The sink together with the files it writes. */
  datatype FileState = FileState(sink: FileSink, files: FileSystem)

  /** `s_flog` before any initialisation: everything zero, no handle. */
  const ClosedSink: FileSink := FileSink(false, "", "", 0, 0, 0, TimeVal(0, 0))

  /** What the logger keeps true of its file sink: the name fits its buffer and
      an open handle's file exists, with `currentFileSize` its length. */
  predicate SinkValid(s: FileState)
  {
    && |s.sink.name| <= MaxNameLen
    && (s.sink.open ==> s.sink.path in s.files && s.sink.currentFileSize == |s.files[s.sink.path]|)
  }

  /** `getFileSize`: the length of the file, 0 when there is none; so right
      after a successful open for appending it is the length of the file
      the handle appends to. */
  function FileSize(fs: FileSystem, path: string): (n: nat)
    ensures n == |OpenForAppend(fs, path)[path]|
  {
    if path in fs then |fs[path]| else 0
  }

  /** A successful `fopen(path, "a")`: the file exists afterwards, empty if it was new. */
  function OpenForAppend(fs: FileSystem, path: string): (r: FileSystem)
    ensures path in r && r.Keys == fs.Keys + {path}
    ensures path in fs ==> r == fs
    ensures path !in fs ==> r[path] == []
  {
    if path in fs then fs else fs[path := []]
  }

  /** The outcome of `rotateLogFiles`: the new sink and files, and its result. */
  datatype Rotated = Rotated(state: FileState, writable: bool)

  /** `rotateLogFiles`. Below the size limit nothing changes and the result is
      whether the handle is open. At or above it the handle is closed (when it
      is open), the chain is shifted, and the base name is reopened for
      appending; a successful reopen resumes the size from the file on disk,
      a failed one leaves the sink closed with its size unchanged. */
  function Rotate(s: FileState, o: FsOracle): (r: Rotated)
    ensures SinkValid(s) ==> SinkValid(r.state)
    ensures r.writable == r.state.sink.open
    ensures s.sink.currentFileSize < s.sink.maxFileSize ==> r == Rotated(s, s.sink.open)
    ensures var f, g := s.sink, r.state.sink;
      g.name == f.name && g.maxFileSize == f.maxFileSize && g.maxBackupFiles == f.maxBackupFiles
      && g.flushTime == f.flushTime
    ensures s.sink.currentFileSize >= s.sink.maxFileSize ==>
      r.writable == o.reopenOk
      && (r.writable ==> r.state.sink.path == s.sink.name && s.sink.name in r.state.files
                         && r.state.sink.currentFileSize == |r.state.files[s.sink.name]|)
      && (!r.writable ==> r.state.sink.currentFileSize == s.sink.currentFileSize)
  {
    var f := s.sink;
    if f.currentFileSize < f.maxFileSize then Rotated(s, f.open)
    else
      var shifted := ShiftChain(s.files, f.name, f.maxBackupFiles, o);
      if o.reopenOk then
        var reopened := OpenForAppend(shifted, f.name);
        Rotated(FileState(f.(open := true, path := f.name, currentFileSize := FileSize(reopened, f.name)), reopened), true)
      else
        Rotated(FileState(f.(open := false), shifted), false)
  }

  /** With at least one backup and every file operation succeeding, a rotation
      moves the full base file to `base.1`, shifts the rest of the chain up by
      one, evicts the old last backup, leaves other files alone and starts an
      empty base file, so the size restarts at 0. */
  lemma RotationStartsFreshFile(s: FileState, o: FsOracle)
    requires SinkValid(s) && s.sink.currentFileSize >= s.sink.maxFileSize
    requires s.sink.maxBackupFiles >= 1 && NoShiftFailures(o) && o.reopenOk
    ensures var r := Rotate(s, o); var base := s.sink.name; var n := s.sink.maxBackupFiles;
      && r.writable && r.state.sink.currentFileSize == 0 && r.state.files[base] == []
      && (forall j: UInt8 :: 1 <= j <= n ==>
            (BackupName(base, j) in r.state.files <==> BackupName(base, j - 1) in s.files))
      && (forall j: UInt8 :: 1 <= j <= n && BackupName(base, j - 1) in s.files ==>
            r.state.files[BackupName(base, j)] == s.files[BackupName(base, j - 1)])
      && (forall p :: !InChain(base, n, p) ==>
            (p in r.state.files <==> p in s.files) && (p in s.files ==> r.state.files[p] == s.files[p]))
  {
    var base := s.sink.name;
    var n := s.sink.maxBackupFiles;
    var shifted := ShiftChain(s.files, base, n, o);
    ShiftChainMovesEverySlot(s.files, base, n, o);
    BackupNameShape(base, 0);
    assert base !in shifted;
    var files := Rotate(s, o).state.files;
    assert files == shifted[base := []];
    forall p | !InChain(base, n, p)
      ensures (p in files <==> p in s.files) && (p in s.files ==> files[p] == s.files[p])
    {
      assert p != BackupName(base, 0);
      ShiftChainLeavesOthers(s.files, base, n, o, p);
    }
    forall j: UInt8 | 1 <= j <= n
      ensures (BackupName(base, j) in files <==> BackupName(base, j - 1) in s.files)
      ensures BackupName(base, j - 1) in s.files ==> files[BackupName(base, j)] == s.files[BackupName(base, j - 1)]
    {
      BackupNamesDistinct(base, j, 0);
    }
  }

  /** With no backups the loop body never runs: the base file is reopened as it
      was, and its size, reloaded from disk, is the size that triggered the
      rotation. The size never drops below the limit, so every later write
      rotates again without the file ever shrinking. */
  lemma RotationWithoutBackupsNeverShrinks(s: FileState, o: FsOracle)
    requires SinkValid(s) && s.sink.open && s.sink.path == s.sink.name
    requires s.sink.currentFileSize >= s.sink.maxFileSize
    requires s.sink.maxBackupFiles == 0 && o.reopenOk
    ensures var r := Rotate(s, o);
      && r.writable && r.state.files == s.files
      && r.state.sink.currentFileSize == s.sink.currentFileSize
      && r.state.sink.currentFileSize >= r.state.sink.maxFileSize
  {
  }

  // ----- Writing a record -----

  /** `s_flog.currentFileSize += vflog(...)` on the open handle: the parts that
      were written are appended to the file, and the size grows by exactly the
      number of characters appended. */
  function Append(s: FileState, rec: Record, wo: WriteOutcome): (r: FileState)
    requires s.sink.open && s.sink.path in s.files
    ensures r.files.Keys == s.files.Keys && s.sink.path in r.files
    ensures |r.files[s.sink.path]| >= |s.files[s.sink.path]|
    ensures r.files[s.sink.path][..|s.files[s.sink.path]|] == s.files[s.sink.path]
    ensures r.sink.currentFileSize - s.sink.currentFileSize
         == |r.files[s.sink.path]| - |s.files[s.sink.path]|
    ensures SinkValid(s) ==> SinkValid(r)
  {
    var f := s.sink;
    FileState(
      f.(currentFileSize := f.currentFileSize + ByteCount(rec, wo),
         flushTime := NextFlush(rec.now, f.flushTime)),
      s.files[f.path := s.files[f.path] + Emitted(rec, wo)])
  }

  /** The file branch of `logger_log`: rotate, then write the record when the
      rotation leaves a usable handle. */
  function WriteRecord(s: FileState, rec: Record, o: FsOracle, wo: WriteOutcome): (r: FileState)
    requires SinkValid(s)
    ensures SinkValid(r)
  {
    var rot := Rotate(s, o);
    if rot.writable then Append(rot.state, rec, wo) else rot.state
  }

  /** Below the size limit a write never rotates: the record is appended to
      the open file and the size grows by the characters written. */
  lemma WriteBelowLimitAppends(s: FileState, rec: Record, o: FsOracle, wo: WriteOutcome)
    requires SinkValid(s) && s.sink.open && s.sink.currentFileSize < s.sink.maxFileSize
    ensures var r := WriteRecord(s, rec, o, wo);
      && r.files == s.files[s.sink.path := s.files[s.sink.path] + Emitted(rec, wo)]
      && r.sink.currentFileSize == s.sink.currentFileSize + |Emitted(rec, wo)|
  {
  }

  /** With no backups, a full file keeps growing: a write that rotates appends
      the record to the same file and leaves the size at or above the limit. */
  lemma WriteWithoutBackupsKeepsGrowing(s: FileState, rec: Record, o: FsOracle, wo: WriteOutcome)
    requires SinkValid(s) && s.sink.open && s.sink.path == s.sink.name
    requires s.sink.currentFileSize >= s.sink.maxFileSize
    requires s.sink.maxBackupFiles == 0 && o.reopenOk
    ensures var r := WriteRecord(s, rec, o, wo);
      && r.files[s.sink.name] == s.files[s.sink.name] + Emitted(rec, wo)
      && r.sink.currentFileSize >= r.sink.maxFileSize
  {
    RotationWithoutBackupsNeverShrinks(s, o);
  }

  // ----- The handle left NULL by a failed reopen -----

  /** As written, `rotateLogFiles` calls `fclose(s_flog.output)` whenever the
      size has reached the limit, without checking that the handle is open:
      this holds of the states in which that call gets a NULL handle. */
  predicate ClosesNullHandle(f: FileSink)
  {
    f.currentFileSize >= f.maxFileSize && !f.open
  }

  /** A failed reopen leaves the handle NULL and the size at the limit (the
      file flag stays set), so the next `logger_log` reaches `fclose(NULL)`. */
  lemma FailedReopenLeadsToNullClose(s: FileState, o: FsOracle)
    requires s.sink.currentFileSize >= s.sink.maxFileSize && !o.reopenOk
    ensures ClosesNullHandle(Rotate(s, o).state.sink)
  {
  }

  /** With the close guarded by the handle being open, as `Rotate` does, the
      rotation after a failed reopen shifts the chain again and retries the
      reopen, and the sink becomes writable as soon as a reopen succeeds. */
  lemma RotationRetriesAfterFailedReopen(s: FileState, failed: FsOracle, retry: FsOracle)
    requires SinkValid(s) && s.sink.currentFileSize >= s.sink.maxFileSize
    requires !failed.reopenOk && retry.reopenOk
    ensures var again := Rotate(Rotate(s, failed).state, retry);
      again.writable && SinkValid(again.state)
      && again.state.sink.path == s.sink.name
  {
  }

  // ----- Initialisation -----

  /** `logger_initFileLogger` on the sink: close an open handle and open `path`
      for appending. On success the size resumes from the file's length on
      disk, the name keeps at most 255 characters, a non-positive size limit
      becomes 1 MiB and the backup count is stored as given. On failure only
      the handle changes: it is left closed. */
  function InitFileSink(s: FileState, path: string, maxFileSize: int, maxBackupFiles: UInt8, openOk: bool): (r: FileState)
    ensures SinkValid(s) ==> SinkValid(r)
    ensures openOk ==>
      && SinkValid(r) && r.sink.open && r.sink.path == path
      && r.sink.currentFileSize == FileSize(s.files, path)
      && r.sink.maxFileSize > 0
      && (maxFileSize > 0 ==> r.sink.maxFileSize == maxFileSize)
      && (maxFileSize <= 0 ==> r.sink.maxFileSize == DefaultMaxFileSize)
      && r.sink.maxBackupFiles == maxBackupFiles
      && r.sink.name == Truncate(path, MaxNameLen)
      && r.sink.flushTime == s.sink.flushTime
      && (path in s.files ==> r.files == s.files)
      && (path !in s.files ==> r.files == s.files[path := []])
    ensures !openOk ==> r == FileState(s.sink.(open := false), s.files)
  {
    if openOk then
      var files := OpenForAppend(s.files, path);
      FileState(
        FileSink(true, path, Truncate(path, MaxNameLen),
                 if maxFileSize > 0 then maxFileSize else DefaultMaxFileSize,
                 maxBackupFiles, FileSize(files, path), s.sink.flushTime),
        files)
    else
      FileState(s.sink.(open := false), s.files)
  }

  /** Reinitialising with a file that already holds data resumes its size, so a
      file below the limit is not rotated by the next write. */
  lemma InitResumesWithoutPrematureRotation(s: FileState, path: string, maxFileSize: int, maxBackupFiles: UInt8, o: FsOracle)
    requires path in s.files && |s.files[path]| < maxFileSize
    ensures var t := InitFileSink(s, path, maxFileSize, maxBackupFiles, true);
      t.sink.currentFileSize == |s.files[path]|
      && Rotate(t, o) == Rotated(t, true)
  {
  }
}
