# A verified model of the logger core

This project models the core of a small C logging library:

- the logging facility of `src/logger.c`, which covers:
  - the sink bitmask;
  - the level gate;
  - the console and file sinks and their initialisation;
  - the size-based rotation of the log file through a chain of numbered backups;
  - the write path of `logger_log`, with the byte accounting and flush rule of `vflog`.
- the configuration loader of `src/loggerconf.c`, which works line by line:
  - it strips comments and trims each line in place;
  - it splits `key=value` with `strtok`;
  - it parses the level and the sink settings;
  - `logger_configure` then initialises the requested sinks and decides success.

The model mixes pure and imperative Dafny:

- **Classes.** Process-wide state the C code updates in place is a class, whose methods change its fields:
  - the facility's statics are `Logger.LoggerFacility`;
  - the loader's statics are `LoggerConf.ConfigLoader`.
- **Arrays.** The in-place buffer algorithms `removeComments` and `trim` work on an `array<char>`.
- **Contracts.** The central methods are proved against a pure function, and the lemmas state what the source promises about that function:
  - `Rotate` for `rotateLogFiles`;
  - `Append` and `WriteRecord` for the file write;
  - `InitFileSink` for `logger_initFileLogger`;
  - `TrimBuffer` and `Trim` for `trim`;
  - `ApplyLine` and `ApplyLines` for `parseLine` and the `fgets` loop;
  - `LoggerFlags` and `OutputStream` for the `logger` and `logger.console.output` branches of `parseLine`.

  Other methods state their new state field by field or element by element, using those functions where one applies; among them are `InitConsoleLogger`, `InitDataLogger`, `WriteConsole`, `Log` and `RemoveComments`.

Modules:

- `CLib`: the C library facts the code relies on:
  - C strings as the prefix before the first NUL;
  - `isspace`;
  - `%d`;
  - `atoi`;
  - `unsigned char`.
- `LogLevels`: levels, `logger_isEnabled` and `getLevelChar`.
- `Sinks`: the sink bitmask, as a set of sinks, and `hasFlag`.
- `LineFormat`: one record as `vflog` writes it, its byte count and the flush rule.
- `Rotation`:
  - the file sink `s_flog`;
  - `getBackupFileName`;
  - the countdown of `rotateLogFiles`;
  - the write and the initialisation of the file sink.
- `Logger`: the facility object and its entry points.
- `ConfText`: `removeComments`, `trim`, and the `strtok` split.
- `LoggerConf`: `parseLevel`, `parseLine` and `logger_configure`.

Things outside the program become parameters:

- **File system.** The file system is a map from path to contents.
- **Failure oracles.** Calls that may fail take an oracle argument that decides their outcome:
  - `remove` and `rename`;
  - `fopen`;
  - `socket`;
  - each of `vflog`'s three writes.
- **Clock.** The clock is the `now` argument of a log call.
- **Rendered prefix.** Part of each line's prefix is one opaque `context` string:
  - the calendar time;
  - the thread id;
  - the caller's file and line.
- **Configuration file.** The configuration file is either `None`, when it cannot be opened, or the sequence of chunks `fgets` returns.

Behaviour of the code that the model keeps as written:

- **Invalid `logger` value.** An unknown value clears every sink requested so far (`s_logger = 0`).
- **Empty file name.** `logger_initFileLogger` does not reject an empty file name. It only rejects NULL.
- **Invalid console stream.** `logger_initConsoleLogger` given a stream other than stdout or stderr returns 0 and changes nothing. A debug build stops at the assertion at src/logger.c:157; the model follows the release build, which returns 0.
- **Blanks around `=`.** They are not trimmed. `level = WARN` is a line whose key is `"level "`, and the loader ignores it.
- **Data logger.** The data logger is recorded as the target address and the port. The port is cut to 16 bits by `htons`, and the address passes through unparsed.

## Model

| member | source | states |
|---|---|---|
| CLib.Truncate | src/logger.c:203 | `strncpy` into the 256-byte name buffer and `%.255s` keep at most the first n characters, and the whole string when it is short enough |
| CLib.CLen | src/loggerconf.c:112 | `strlen` is the index of the first NUL, and no NUL comes before it |
| CLib.DecimalStringInjective | src/logger.c:271 | `%d` prints distinct numbers differently |
| CLib.DecimalStringLength | src/logger.c:262 | an index below 100 prints in at most two digits, and 100..255 in exactly three |
| CLib.AtoiOfDecimal | src/loggerconf.c:160-171 | `atoi`/`atol` read back every number `%d` prints, with or without a minus sign |
| CLib.Atoi | src/loggerconf.c:160-171 | `atoi`/`atol` after the leading blanks: without a minus sign the value is never negative, and it is 0 when neither a sign nor a digit comes first |
| LogLevels.GateIsUpwardClosed | src/logger.c:255-258 | the gate admits every level at or above the threshold: a level above an admitted one is admitted |
| LogLevels.DefaultAndWarnGates | src/logger.c:70 | under the default INFO threshold exactly TRACE and DEBUG are suppressed; under WARN exactly WARN, ERROR and FATAL pass |
| LogLevels.IsEnabled | src/logger.c:255-258 | a level passes its own threshold, FATAL passes every threshold and a TRACE threshold passes every level |
| LogLevels.GateOrdersLevels | src/logger.c:255-258 | of two levels one always admits the other, and two levels that admit each other are the same: the gate orders the levels totally |
| LogLevels.LevelChar | src/logger.c:352-365 | the level character is the initial of the level's upper-case name |
| LogLevels.LevelCharInjective | src/logger.c:352-365 | the level character tells the six levels apart and is never the blank or newline around it |
| Sinks.MaskRepresentsFlags | src/logger.c:367-370 | `hasFlag`'s `(flags & flag) == flag` holds exactly for the sinks in the set; ORing a bit in adds the sink; the mask is 0 exactly when no sink is set |
| LineFormat.ShouldFlush | src/logger.c:343-344 | with well-formed times, a write more than `kFlushInterval` microseconds after the last flush always flushes |
| LineFormat.NextFlush | src/logger.c:343-348 | the flush time becomes the write time or stays. With a clock that does not run backwards it never moves back, and after a write it is at most `kFlushInterval` microseconds behind it |
| LineFormat.ByteCount | src/logger.c:330-349 | `vflog` returns exactly the number of characters its successful writes put into the stream; this is at most the full line, and equal to it when all three writes succeed |
| LineFormat.CompleteWriteIsOneLine | src/logger.c:334-342 | a fully written record is one line: it starts with the level character and holds one newline, at its end |
| Rotation.BackupName | src/logger.c:260-274 | the name starts with the base name, as the sink stores it, and adds at most four characters; it adds none exactly for index 0 |
| Rotation.BackupNameShape | src/logger.c:260-274 | for a base name the sink can hold, index 0 names the base file itself and any other index names the base, a dot and the index in decimal |
| Rotation.BackupNamesDistinct | src/logger.c:268-272 | distinct indices give distinct backup names |
| Rotation.BackupNameOverflow | src/logger.c:262-271 | as written, the `strlen + 4` allocation fits indices below 100 and is one byte short for every index from 100 to 255 |
| Rotation.BackupNameFits | src/logger.c:262-263 | an allocation of the base length plus 5 holds every backup name with its terminator |
| Rotation.ShiftStep | src/logger.c:298-310 | whatever fails, one pass of the countdown touches only slots i and i-1 |
| Rotation.ShiftStepMoves | src/logger.c:298-310 | one pass of the countdown moves slot i-1 into slot i, empties slot i-1 and leaves every other file alone |
| Rotation.ShiftChainMovesEverySlot | src/logger.c:297-314 | with no failures, the countdown from n moves each slot j-1 to slot j for 1 <= j <= n, empties the base slot and evicts the old slot n |
| Rotation.ShiftChainLeavesOthers | src/logger.c:297-314 | whatever removes or renames fail, the countdown from n leaves every file outside the slots `base` .. `base.n` as it was |
| Rotation.FileSize | src/logger.c:169-181 | the size read is the length of the file `fopen(path, "a")` leaves behind, so 0 for a file that does not exist |
| Rotation.OpenForAppend | src/logger.c:197 | `fopen(path, "a")` leaves the file in place, or creates it empty |
| Rotation.Rotate | src/logger.c:288-322 | below the limit nothing changes and the result is whether the handle is open; at the limit the result is whether the reopen succeeded; a reopened file's size is its length on disk, and a failed reopen keeps the size; the sink invariant is kept |
| Rotation.RotationStartsFreshFile | src/logger.c:296-321 | with backups and no failures, a rotation moves the chain up by one, leaves other files alone and starts an empty base file of size 0 |
| Rotation.RotationWithoutBackupsNeverShrinks | src/logger.c:297-320 | with no backups, a rotation reopens the same file and its size stays at or above the limit |
| Rotation.Append | src/logger.c:404-405 | a write appends to the open file, and the size grows by exactly the characters appended; the sink invariant is kept |
| Rotation.WriteRecord | src/logger.c:401-408 | the file branch of `logger_log` keeps the sink invariant |
| Rotation.WriteBelowLimitAppends | src/logger.c:293-294 | below the size limit a write appends the emitted text to the open file without rotating |
| Rotation.WriteWithoutBackupsKeepsGrowing | src/logger.c:401-408 | with no backups a full file keeps receiving records and stays at or above the limit |
| Rotation.FailedReopenLeadsToNullClose | src/logger.c:293-318 | after a failed reopen the size is still at the limit and the handle is NULL, so the next rotation reaches `fclose(NULL)` |
| Rotation.RotationRetriesAfterFailedReopen | src/logger.c:293-321 | with the close guarded, the rotation after a failed reopen retries the reopen and makes the sink writable again |
| Rotation.InitFileSink | src/logger.c:194-205 | reinitialisation closes the old handle. A successful open sets the rest: the size resumes from the file on disk, the name is truncated to 255 characters, a non-positive limit becomes 1 MiB and the backup count is kept. A failed open only closes the sink |
| Rotation.InitResumesWithoutPrematureRotation | src/logger.c:197-204 | reopening an existing file below the limit resumes its size, and the next write does not rotate |
| Logger.LoggerFacility.constructor | src/logger.c:37-71 | the zero-initialised statics: no sink, threshold INFO, no handle, no socket, and a console stream that stands in for the NULL `s_clog.output` |
| Logger.LoggerFacility.Init | src/logger.c:79-93 | the facility is initialised afterwards |
| Logger.LoggerFacility.SetLevel | src/logger.c:245-248 | the threshold becomes the level |
| Logger.LoggerFacility.InitConsoleLogger | src/logger.c:153-167 | NULL selects stdout; another stream returns 0 and changes nothing; otherwise the stream is recorded and only the console flag is added |
| Logger.LoggerFacility.CloseOutput | src/logger.c:194-196 | `fclose` leaves the file handle closed |
| Logger.LoggerFacility.InitFileLogger | src/logger.c:183-211 | the file sink becomes `InitFileSink` of the old one; the file flag is added exactly on success; nothing else changes |
| Logger.LoggerFacility.InitDataLogger | src/logger.c:213-243 | the socket is created at most once; without one nothing but initialisation happens; with one the address, the port cut to 16 bits and the data flag are set |
| Logger.LoggerFacility.RemoveFile | src/logger.c:301-305 | `remove` either deletes the file and returns 0, or changes nothing |
| Logger.LoggerFacility.RenameFile | src/logger.c:306-310 | `rename` either moves the contents over the destination and returns 0, or changes nothing |
| Logger.LoggerFacility.ShiftSlot | src/logger.c:298-310 | the remove and the rename of one pass produce exactly `ShiftStep` |
| Logger.LoggerFacility.RotateLogFiles | src/logger.c:288-322 | the loop and reopen produce exactly `Rotate` of the old sink and files, and keep the facility's invariant |
| Logger.LoggerFacility.WriteConsole | src/logger.c:395-400 | the emitted text goes to the console stream and the flush time follows the flush rule |
| Logger.LoggerFacility.AppendRecord | src/logger.c:401-407 | the write to the file and the size accounting are exactly `Append` |
| Logger.LoggerFacility.Log | src/logger.c:372-410 | with no sink, no initialisation or a suppressed level, nothing changes. Otherwise the record goes once to each active sink: to the console, and through rotate-then-append to the file. Flags, threshold and socket are untouched |
| Logger.ConsoleAndFileFacility | test/logger_multi_test.c:51-61 | both initialisations of the test succeed: console on stdout, the file sink open on a new empty "file.log" with size 0 and the default limit, the threshold INFO |
| Logger.MultiSinkScenario | test/logger_multi_test.c:34-79 | with console and file sinks at the default threshold, TRACE and DEBUG are dropped and each sink receives the INFO line exactly once |
| ConfText.Trim | src/loggerconf.c:104-123 | the trimmed string is no longer than the line, neither starts nor ends with a blank, and holds only characters of the line |
| ConfText.TrimRight | src/loggerconf.c:117-118 | the right-trim pass keeps a prefix that ends in a non-blank, and drops only blanks |
| ConfText.TrimAt | src/loggerconf.c:104-123 | the trimmed string is the unique infix whose margins are blank and whose ends are not |
| ConfText.TrimIdempotent | src/loggerconf.c:104-123 | trimming twice is trimming once, and an all-blank line trims to nothing |
| ConfText.MoveToFront | src/loggerconf.c:121-122 | `memmove` and the new terminator put the characters after the leading blanks at the front and touch nothing after the terminator |
| ConfText.TrimBuffer | src/loggerconf.c:104-123 | the buffer keeps its length and keeps a terminator |
| ConfText.TrimBounds | src/loggerconf.c:117-120 | the two passes stop at the bounds of the trimmed string |
| ConfText.MovedSliceIsCStr | src/loggerconf.c:121-122 | after the move the buffer's C string is exactly the moved slice |
| ConfText.TrimBufferHoldsTrim | src/loggerconf.c:104-123 | the buffer `trim` leaves holds the trimmed C string, and nothing past the old terminator changes |
| ConfText.RemoveComments | src/loggerconf.c:93-102 | every '#' before the terminator becomes NUL, nothing else changes, and the C string is cut at the first '#' |
| ConfText.CommentsCut | src/loggerconf.c:97-101 | blanking every '#' of a C string cuts it at its first '#' |
| ConfText.MemMove | src/loggerconf.c:121 | the n characters at `src` move to the front and the rest is unchanged |
| ConfText.TrailingCut | src/loggerconf.c:117 | the right-trim loop stops just past the last non-blank |
| ConfText.LeadingBlanks | src/loggerconf.c:120 | the left-trim loop counts exactly the leading blanks |
| ConfText.ShiftDown | src/loggerconf.c:121-122 | the move and the terminator produce `MoveToFront` |
| ConfText.TrimInPlace | src/loggerconf.c:104-123 | `trim` on the array produces `TrimBuffer`, and so the trimmed C string |
| ConfText.CleanLine | src/loggerconf.c:67-70 | the line `parseLine` sees holds no '#' and no NUL, and neither starts nor ends with a blank |
| ConfText.CommentCut | src/loggerconf.c:67-69 | text before a '#' survives the comment cut whole, and nothing from the '#' on survives |
| ConfText.CStrOfTerminated | src/loggerconf.c:67 | a chunk with the terminator `fgets` adds reads back as the chunk's C string |
| ConfText.SkipDelims | src/loggerconf.c:132-133 | `strtok` skips the leading '=' characters, and what is left does not start with one |
| ConfText.Strtok | src/loggerconf.c:132-133 | a token is non-empty and free of '='; when no token is left, nothing remains |
| ConfText.SplitKeyValue | src/loggerconf.c:132-133 | no key means no value; a key and a value are each non-empty and free of '=' |
| ConfText.SplitJoin | src/loggerconf.c:132-133 | splitting `key=value` gives back the key and the value, and a line without '=' is all key |
| LoggerConf.ParseLevel | src/loggerconf.c:175-193 | the result is the level the word names, or the current level |
| LoggerConf.ParseLevelRoundTrip | src/loggerconf.c:175-193 | each level reads back from its name, and a word naming no level keeps the current level |
| LoggerConf.LoggerFlags | src/loggerconf.c:137-147 | a `logger` line either adds exactly one sink to those requested before it or leaves none |
| LoggerConf.OutputStream | src/loggerconf.c:148-156 | the stored console stream is always one `logger_initConsoleLogger` accepts: stdout, stderr or NULL |
| LoggerConf.BackupCount | src/loggerconf.c:161-167 | a negative backup count is stored as 0, and a count from 0 to 255 as read |
| LoggerConf.PortValue | src/loggerconf.c:170-171 | the stored port fits an `unsigned int`, and a value that fits is kept as read |
| LoggerConf.ApplyKeyValue | src/loggerconf.c:135-172 | an unknown key changes nothing; only the level key changes the level, and it changes nothing else; only the `logger` key changes the requested sinks |
| LoggerConf.ApplyLine | src/loggerconf.c:127-173 | a line whose key is not `level` keeps the level, and a line whose key is not `logger` keeps the requested sinks |
| LoggerConf.ApplyLines | src/loggerconf.c:67-74 | chunks that are all blank after cleaning change nothing, and without a `logger` line the requested sinks stay |
| LoggerConf.ApplyLinesStep | src/loggerconf.c:67-74 | reading one more chunk skips it when blank and otherwise applies `parseLine` to it |
| LoggerConf.OwnKeyWrites | src/loggerconf.c:148-171 | a line naming a stored key sets that setting from its value |
| LoggerConf.OtherKeyKeeps | src/loggerconf.c:135-172 | a line naming any other key leaves that setting as it was |
| LoggerConf.StoredSettingStep | src/loggerconf.c:148-171 | for each stored setting (output, file name, size limit, backup count, address, port), a line writes it from its value exactly when the line names its key, and otherwise leaves it alone |
| LoggerConf.LastAssignmentWins | src/loggerconf.c:148-171 | for each stored setting, the last line naming its key decides it; with no such line, the earlier value stays |
| LoggerConf.LoggerLine | src/loggerconf.c:137-147 | a `logger` line changes the requested sinks and nothing else |
| LoggerConf.UnknownKeyIgnored | src/loggerconf.c:135-172 | an unrecognised key changes nothing |
| LoggerConf.BlankBeforeEqualsIgnored | src/loggerconf.c:132-135 | a blank before '=' stays in the key, so the line changes nothing |
| LoggerConf.KeysEndInLetters | src/loggerconf.c:135-170 | no recognised key ends in a blank |
| LoggerConf.KnownKeySets | src/loggerconf.c:135-172 | `key=value` with a known key applies exactly that key's setting; shown for level, file name and backup count |
| LoggerConf.BackupCountWraps | src/loggerconf.c:161-167 | a negative backup count becomes 0, and a count past 255 wraps modulo 256 |
| LoggerConf.CleanLineDropsComment | src/loggerconf.c:67-73 | a trailing comment and the blanks before it are gone before `parseLine` |
| LoggerConf.CommentLineSkipped | src/loggerconf.c:67-72 | a line of blanks and a comment is skipped |
| LoggerConf.AllGrantedIffGranted | src/loggerconf.c:77-85 | every requested initialisation succeeds exactly when the sinks granted are the sinks requested |
| LoggerConf.CleanChunk | src/loggerconf.c:67-70 | comment removal then `trim` on the `fgets` buffer leaves the cleaned line, and the buffer starts with NUL exactly when that line is blank |
| LoggerConf.ConfigLoader.constructor | src/loggerconf.c:21-45 | the loader's statics start zeroed: no sink, NULL output, empty names, zero limits |
| LoggerConf.ConfigLoader.ParseLine | src/loggerconf.c:127-173 | `parseLine` on the statics and the facility's level is exactly `ApplyLine` |
| LoggerConf.ConfigLoader.ParseSink | src/loggerconf.c:137-147 | the `logger` branch of `parseLine` produces exactly `LoggerFlags` |
| LoggerConf.ConfigLoader.ParseOutput | src/loggerconf.c:148-156 | the `logger.console.output` branch produces exactly `OutputStream` |
| LoggerConf.ConfigLoader.ReadLines | src/loggerconf.c:67-74 | the `fgets` loop is exactly `ApplyLines` over the chunks |
| LoggerConf.ConfigLoader.InitSinks | src/loggerconf.c:77-85 | every requested sink is initialised even after an earlier failure, and the result is the conjunction of the outcomes. The facility gains exactly the granted sinks; the console stream, the file sink, the socket, the address and the port become what each requested initialisation makes of them; the level and the terminal are unchanged |
| LoggerConf.ConfigLoader.Configure | src/loggerconf.c:52-91 | an unopenable file returns 0 and changes nothing. Otherwise the lines set the level and the settings, and the requested sinks are initialised from those settings with the same effect on the facility as `InitSinks`. The result is success exactly when a sink was requested and all requested sinks succeeded. Only then are the loader's flags cleared |

## Left out

- The data logger's sending path (`logger_logData`, the UDP `sendto` and its buffer) is not part of this model. Only `logger_initDataLogger`'s state is modelled.
- `inet_addr` is not modelled: the address is recorded as the string given.
- Locking, `WSAStartup` and thread ids are not modelled. Each facility method is one step taken under the lock.
- The clock, calendar rendering, `printf` formatting of the message and the caller's file:line are one opaque `context` string and the `now` argument.
- `malloc` failure in `getBackupFileName` is not modelled. The loop's `src != NULL && dst != NULL` guard always holds in the model.
- Permission failures of `isFileExist` and `getFileSize` are not modelled. A file exists exactly when it is in the map, and its size is its length.
- `fflush` and output buffering are not modelled. Only the flush time the rule records is.
- Overflow of `atoi`/`atol` is not modelled. Such overflow is undefined in C; the model keeps the unbounded value. Likewise `currentFileSize` does not wrap.
- `getLevelChar`'s default branch is not modelled, because `LogLevel` has exactly the six levels.
- The splitting of lines longer than 511 characters by `fgets` is not modelled. The chunks `fgets` returns are the input.
- Lines with undefined behaviour in `parseLine` are excluded by `LineDefined` and `Processable`: a known key with no value, and a line with no key. Both hand NULL to `strcmp`.
- LoggerConf.ConfigLoader.Configure: a configuration that requests the file sink while the stored file name fills its 256-byte buffer, or the data sink while the stored address fills its 16-byte buffer, is excluded by `SinkArgsDefined`. `strncpy` leaves such a buffer unterminated, and the initialisation then reads past its end. A long value is otherwise stored cut to the buffer, as `strncpy` does (`CLib.Truncate`).
- LoggerConf.ConfigLoader.InitSinks: requires `SinkArgsDefined` for the same reason.
- The NULL checks of file name and address and their debug assertions are not modelled, because strings cannot be NULL here.
- `logger_log`'s debug assertion before initialisation is not modelled. It returns without effect in the model, as in a release build.
- The facility's bitmask `s_logger` is a set of sinks. `Sinks.MaskRepresentsFlags` relates the set to the bits.
- `logger_autoFlush`, called by the multi-sink test, is not defined in `src/logger.c`. `MultiSinkScenario` leaves that call out.
- Logger.LoggerFacility.InitConsoleLogger: a NULL console output is stored as stdout rather than as NULL. The C code replaces NULL by stdout before storing, so nothing is lost.
- LoggerConf.ConfigLoader.Configure: `fclose` of the configuration file is not modelled.
- Rotation.Rotate: the model closes the handle only when it is open. The C code at src/logger.c:296 calls `fclose` unconditionally, which is undefined for the NULL handle a failed reopen leaves behind; the second Findings row records this.
- Logger.LoggerFacility.RotateLogFiles: closes only an open handle, as `Rotation.Rotate` does, where the C code passes NULL to `fclose` after a failed reopen.
- Logger.LoggerFacility.constructor: the console stream starts as stdout, where the C static `s_clog.output` starts as NULL. The stream has no NULL value in the model; it is read only once the console flag is set, and only `logger_initConsoleLogger` sets that flag, after storing a real stream.
- Logger.LoggerFacility.Log: the error lines `rotateLogFiles` prints to stderr when a remove, a rename or the reopen fails (src/logger.c:303, 308, 317) are not modelled. `terminal` holds only the records the console sink writes, so on those paths the model's stderr lacks the C code's diagnostic.
- Logger.LoggerFacility.RotateLogFiles: the same stderr diagnostics (src/logger.c:303, 308, 317) are not modelled.
- Logger.LoggerFacility.InitFileLogger: the stderr message on a failed `fopen` (src/logger.c:199) is not modelled.
- Logger.LoggerFacility.InitDataLogger: the stderr message on a failed `socket` (src/logger.c:227) is not modelled.
- LoggerConf.ConfigLoader.ParseLine: the stderr messages for an unknown sink, an unknown output, a negative backup count (src/loggerconf.c:145, 154, 164) and an unknown level (src/loggerconf.c:190) are not modelled.
- LoggerConf.ConfigLoader.Configure: the stderr message for a file that cannot be opened (src/loggerconf.c:64) and those of `parseLine` are not modelled; the unchanged terminal speaks only of the console sink's records.

## Findings

| source | as written | input that shows it | evidently intended | confidence | as-written member | corrected member |
|---|---|---|---|---|---|---|
| src/logger.c:262-271 | `getBackupFileName` allocates `strlen(basename) + 4` bytes. The comment says this is for `<basename>.255`, but `".255"` and its terminator need 5 bytes, so `sprintf` writes one byte past the allocation | `maxBackupFiles = 100` and a full log file: the countdown asks for index 100 and writes `".100"` plus NUL after the base name | allocate `strlen(basename) + 5` bytes | not executed | Rotation.BackupNameOverflow | Rotation.BackupNameFits |
| src/logger.c:293-318 | `rotateLogFiles` calls `fclose(s_flog.output)` without checking the handle. After a failed reopen the handle is NULL, the size is still at the limit and the file flag is still set, so the next `logger_log` passes NULL to `fclose` | the file sink at its size limit, and the reopen at line 315 fails; the next log call reaches line 296 with a NULL handle | close only an open handle, as `logger_initFileLogger` does at line 194, then retry the rotation | not executed | Rotation.FailedReopenLeadsToNullClose | Rotation.RotationRetriesAfterFailedReopen |
