# logx in Dafny

A model of the core of logx, a small Go logging library, with its properties proved.

- **Logger** (`logx.dfy`, module `Logx`). A Logger has a writer, a minimum level, a flag word selecting the record's fields, a call depth, a prefix, a colour switch and an output format. Its chained setters each change one field and return the same Logger. Its severity methods (Info, Debug, Notice, Warn, Error, Panic, Fatal) are level-gated: a call below the Logger's level does nothing. Otherwise `output` assembles a LogContent record from the flags:
  - a `Y/MM/DD ` date and an `hh:mm:ss[.mmm]` clock, padded by `formatNum`;
  - a `name:line` call site, trimmed to the last path element under `LogShortFile`, with the `???:0` fallback;
  - the level.

  It renders the record as text or JSON, appends a newline and makes one write. Panic then panics with the message, and Fatal exits with status -1.
- **Record and renderers** (`log_content.dfy`, module `Content`). The LogContent record, its text layout `[prefix] time [LEVL] file: msg`, and its JSON rendering. Both renderings are optionally wrapped in the level's ANSI SGR colour sequence and the reset `ESC[0m`.
- **Level tables** (`levels.dfy`, module `Severity`). The eight levels, their four-character names and their colours.
- **File sink** (`file.dfy`, module `FileSink`). The rotating FileWriter:
  - option normalisation (`prepareFileWriterOption`);
  - the bucket layout of each storage type;
  - the `initFile` rotation state, an open handle plus the bucket key it belongs to;
  - `Write`;
  - the retention sweep `clearLogFile` over the plain files `getDirFiles` lists.
- **Package API** (`std.dfy`, module `Std`). The default Logger `std` as configured by `init`, the package-level `SetColor` and `SetWriter`, `getFormat`, and the fourteen package-level functions that delegate to `std`.
- **Go library behaviour** (`gostrings.dfy`, `gotime.dfy`). The parts of Go's library that the core depends on: `strconv.FormatInt`, `strings.LastIndex` with a one-character separator, and `time.Format` on the tokens of the four bucket layouts. Only `strconv.FormatInt` has a parser as its round-trip partner (`ParseDigits`, `ParseFormatInt`). `strings.LastIndex` is pinned down by its own contract: the last occurrence with none after it, or -1. `time.Format` has no parser; `PadRoundTrip` shows each padded field reads back, and `KeyFromInjective` and `SameBucketIffSameFields` show that two instants share a bucket key exactly when they agree on the fields it keeps.

What the Go runtime supplies enters the Logger as an `Env` value:

- the current instant (`time.Now`);
- the caller's frame at a depth (`runtime.Caller`);
- message formatting (`fmt.Sprintf`);
- JSON encoding (`json.Marshal`).

The writer is a class that records every write. The file system is a class holding a map from path to contents and a set of directories, with three fixed sets of paths: where `os.MkdirAll` or `os.OpenFile` fails, where `os.Remove` fails, and where a write fails. `os.ReadDir`'s result is an input to the sweep, and so is the sweep's `now`: a nanosecond count, which is what `clearLogFile` compares. Panics and process exits are outcome values; a panic inside the sink names the failing call (`Fault`).

Two behaviours of the code are worth stating outright:

- Flags do not remove tokens from the text layout. `Text` always writes the time field and a space, the bracketed level name, and `": "` before the message, even when the flags switch those fields off. With `LogLevel` off the level is left at `0`, so the text shows `[TEST]` (`Logx.LevelTokenWithoutFlag`).
- Only `Json` checks for a nil record; `Text` would dereference nil. `output` never passes nil, and the model gives `Text` a non-null receiver.

## Model

| member | source | states |
|---|---|---|
| Severity.LevelNamesShape | logx.go:72-81 | every level name has four characters and no escape character, and there are as many colours as names |
| Severity.ColorsAreSgr | logx.go:42-59 | every level colour is 7 characters, starting with `ESC[` and ending with `m`, and the reset is `ESC[0m` |
| GoStrings.FormatInt | logx.go:325 | strconv.FormatInt(i, 10), as formatNum and the call site's line number (logx.go:304) use it: a `-` before a negative i, then the decimal digits, with no leading zero; it is all digits exactly when i is non-negative; ParseFormatInt reads a non-negative rendering back |
| GoStrings.ParseFormatInt | logx.go:304 | the decimal rendering of a line number reads back as that number |
| GoStrings.LastIndex | logx.go:299 | the result is the position of the last occurrence of the character, with none after it, or -1 when it does not occur |
| Content.LogContent.constructor | logx.go:124-126 | a new record has every field at its zero value |
| Content.LogContent.Text | log_content.go:40-66 | the bytes built piece by piece are exactly the colour-wrapped layout `[prefix] ` + time + ` [LEVL] ` + file + `: ` + msg |
| Content.Json | log_content.go:21-36 | a nil record gives empty bytes; otherwise Level is set in place to the name of LevelInt, nothing else changes, and the result is the encoding of the record's tagged fields as they stand after that assignment, between the colour sequences |
| Content.TextColorWrap | log_content.go:42-64 | colour on: the text is the level's colour + the uncoloured text + reset; colour off: just the layout |
| Content.JsonColorWrap | log_content.go:28-34 | colour on: the JSON is colour + encoded payload + reset; colour off: just the encoded payload |
| Content.TextWithoutColorHasNoEscape | log_content.go:40-66 | without colour, and with fields free of ESC, no escape character appears in the text |
| Content.TextPrefixToken | log_content.go:45-50 | an empty prefix adds nothing; a non-empty one adds exactly `[prefix] ` in front of the prefix-less text |
| Content.TextLevelNameAt | log_content.go:51-60 | without colour and prefix, the level name occupies the four characters after the time and ` [`, followed by `] `, the file, `: ` and the message |
| Content.PayloadIgnoresHiddenFields | log_content.go:10-27 | the `json:"-"` fields Color and LevelInt never reach the payload; after the level is resolved, the payload carries the name of LevelInt whatever Level held before |
| Logx.FormatNum | logx.go:324-340 | formatNum: the decimal string, with one, two or three zeros in front exactly when the width asked for exceeds its length by 1, 2 or 4, and unchanged otherwise; its properties are the FormatNum lemmas below |
| Logx.FormatNumTwoDigits | logx.go:329-332 | a single digit at width 2 gets one leading zero, e.g. hour 3 becomes `03` |
| Logx.FormatNumThreeDigits | logx.go:329-334 | at width 3 a single digit gets `00` and a two-digit number gets `0` |
| Logx.FormatNumNeverTruncates | logx.go:324-340 | the result always ends with the full decimal string and adds at most three zeros; when need minus length is not 1, 2 or 4, the result is the plain decimal string |
| Logx.FormatNumKeepsYear | logx.go:329-339 | a four-digit year at width 2 is returned unchanged: 2024 stays `2024` |
| Logx.FormatNumDifferenceFour | logx.go:335-336 | a difference of four adds only three zeros: 7 at width 5 becomes `0007` |
| Logx.FormatNumFixedWidth | logx.go:324-340 | for the clock's ranges at widths 2 and 3, the field has exactly that width and reads back as the number |
| Logx.TimeSetOnlyUnderFlags | logx.go:266-290 | the time field is non-empty if and only if a date, time or microseconds flag is set |
| Logx.TimeStampWidths | logx.go:266-290 | for a four-digit year the date part is 11 characters; the clock part is 8, or 12 with `.mmm` only under LogMicroSeconds; the total width follows the flags |
| Logx.DatePartColumns | logx.go:268-276 | for a four-digit year the date is `YYYY/MM/DD `, with each separator and field at its fixed column |
| Logx.ClockPartColumns | logx.go:277-288 | under LogMicroSeconds the clock is `hh:mm:ss.mmm` with each separator at its fixed column |
| Logx.StdTimeStampRoundTrip | logx.go:266-290 | under StdFlags and for a four-digit year the time field is 23 characters, and year, month, day, hour, minute, second and millisecond each read back from their columns |
| Logx.ShortNameIsLastElement | logx.go:298-301 | the short name is the text after the last `/`, holds no `/`, and is the whole name when it has none |
| Logx.CallSiteFallback | logx.go:250-256 | an unresolved caller renders as `???:0` |
| Logx.CallSiteResolved | logx.go:296-306 | a resolved caller renders as `short:line` under LogShortFile and as `name:line` otherwise |
| Logx.RenderDispatch | logx.go:308-317 | the bytes end in `'\n'`; JSON format gives the JSON rendering of the record with its level resolved, plus newline; any other format renders exactly as text |
| Logx.LevelTokenWithoutFlag | logx.go:291-293 | without LogLevel, LevelInt stays 0 and the text still carries ` [TEST] ` |
| Logx.Writer.Write | logx.go:318 | one write appends exactly the given bytes and reports their length |
| Logx.Logger.New | logx.go:113-133 | flag StdFlags, level 0, call depth 2, no prefix, colour off, text format, and the first writer if one is given |
| Logx.Logger.SetWriter | logx.go:138-141 | only the writer changes, and the same Logger is returned |
| Logx.Logger.SetPrefix | logx.go:145-148 | only the prefix changes, and the same Logger is returned |
| Logx.Logger.SetFlag | logx.go:152-155 | only the flag changes, and the same Logger is returned |
| Logx.Logger.SetLevel | logx.go:157-160 | only the level changes, and the same Logger is returned |
| Logx.Logger.SetColor | logx.go:162-165 | only the colour switch changes, and the same Logger is returned |
| Logx.Logger.SetFormat | logx.go:169-172 | only the format changes, and the same Logger is returned |
| Logx.Logger.SetCallDepth | logx.go:174-177 | only the call depth changes, and the same Logger is returned |
| Logx.Logger.SetCallDepthPlus | logx.go:179-182 | the call depth grows by exactly one and nothing else changes |
| Logx.Logger.GetCallDepth | logx.go:184-186 | the call depth the setters and New leave, as it stands |
| Logx.Logger.Output | logx.go:244-322 | with a writer, exactly one write of the rendered record, rendered from the configuration, the level, the message and the environment; with none, no write (the nil-writer panic) |
| Logx.Logger.Info | logx.go:188-193 | below the Logger's level nothing is written; at or above it, one write of the record with the formatted message, and a normal return |
| Logx.Logger.Debug | logx.go:195-200 | the same gate and single write at the Debug level |
| Logx.Logger.Notice | logx.go:202-207 | the same gate and single write at the Notice level |
| Logx.Logger.Error | logx.go:209-214 | the same gate and single write at the Error level |
| Logx.Logger.Warn | logx.go:216-221 | the same gate and single write at the Warn level |
| Logx.Logger.Panic | logx.go:223-230 | below the level, nothing: no write, no panic. Otherwise the record is written first, then the call panics with the same formatted message |
| Logx.Logger.Fatal | logx.go:232-238 | below the level, nothing. Otherwise the record is written first, then the process exits with status -1 |
| Logx.NewContent | logx.go:259-307 | the record filled field by field from the flags is the specified record: prefix, time only under time flags, level only under LogLevel, call site only under file flags, message |
| Logx.FlagFields | logx.go:266-306 | each flag-controlled field is the rendered time stamp, the level or the `name:line` call site exactly when its flags are set, and its zero value otherwise |
| Logx.Locate | logx.go:250-257 | under a file flag the call site is the caller's name and line, or `???` and 0 when unresolved |
| Logx.TimeField | logx.go:266-290 | the timestamp built by successive appends is the specified date part and/or clock part |
| Logx.FileField | logx.go:296-306 | the call-site text built by appends is the (short) name, `:` and the decimal line |
| Logx.Encode | logx.go:308-317 | the bytes are the chosen renderer's output followed by `'\n'` |
| FileSink.GetFileFormat | file.go:45-47 | the layout is non-empty exactly for a storage type in the table, and empty for an unknown one |
| FileSink.FormatsTable | file.go:33-38 | exactly the four storage types 0 to 3 have a layout, and no two share one |
| FileSink.FileDate | file.go:94-96 | the bucket key: `time.Format` of the instant with the storage type's layout; FileDateFields states what it is |
| GoTime.Format | file.go:96 | `time.Format` on the tokens 2006, 01, 02, 15, 04 and 05, each replaced by the zero-padded field and every other character copied; PadRoundTrip and FileDateFields state what it yields |
| FileSink.FileDateFields | file.go:94-96 | the bucket key is the leading fields the storage type keeps (year, month, day, hour, minute), zero-padded and `-`-separated |
| FileSink.SameBucketIffSameFields | file.go:96-100 | two instants have the same bucket key if and only if they agree on every field the storage type keeps |
| FileSink.BucketsByStorageType | file.go:33-38 | the same, spelled out: a month bucket is year and month, a day bucket adds the day, an hour bucket the hour, a minute bucket the minute; an unknown type gives the empty key |
| FileSink.Normalize | file.go:183-198 | after normalisation the directory ends with `/` and MaxDay is positive; storage type, prefix and date pass through |
| FileSink.NormalizeDefaults | file.go:188-196 | an empty directory becomes `./`; a `/` is appended only when missing; MaxDay <= 0 becomes 7 and a positive MaxDay is kept |
| FileSink.NormalizeIdempotent | file.go:191-197 | normalising normalised options changes nothing |
| FileSink.PrepareFileWriterOption | file.go:183-198 | the step-by-step update of the first options, or of the zero options when none are given, yields their normalisation |
| FileSink.DirOf | file.go:102 | the directory passed to MkdirAll is never empty |
| FileSink.TrimTrailingSlashesShape | file.go:102 | stripping the trailing separators keeps a prefix of the path that is empty or does not end in `/`, and everything removed is `/` |
| FileSink.DirOfDirectory | file.go:102 | for a directory path ending in `/`, the directory created is that path without its trailing separators, or `/` for the root |
| FileSink.DirOfExamples | file.go:102 | the default `./` creates `.`, and `logs/` creates `logs` |
| FileSink.LogPathInjective | file.go:107-108 | under one directory and prefix, two bucket keys name the same file if and only if they are equal, and the path lies under the directory |
| FileSink.Created | file.go:108 | opening with O_CREATE adds the path, empty if it was absent, and keeps every existing file |
| FileSink.Appended | file.go:91 | a write appends to its file only and leaves every other file as it was; a file that no longer exists takes no data |
| FileSink.FileSystem.MkdirAll | file.go:103-106 | the call fails exactly at a denied path; otherwise the directory exists afterwards. Files are unchanged |
| FileSink.FileSystem.OpenAppend | file.go:108-111 | the call fails exactly at a denied path; otherwise it returns a fresh open handle on that path, with the file created if absent |
| FileSink.FileSystem.Remove | file.go:151 | the file is deleted unless removal fails at that path, in which case it stays; the error is reported for a failing or missing path; directories do not change |
| FileSink.Handle.Write | file.go:91 | an open handle appends all of p and reports `len(p)`; on a closed handle, or where writing fails, nothing is written, the count is 0 and the error is reported |
| FileSink.Handle.Close | file.go:98 | the handle is closed afterwards; closing twice reports an error |
| FileSink.FileWriter.New | file.go:76-85 | the writer holds the normalised first options and no open file |
| FileSink.FileWriter.InitFile | file.go:94-115 | same bucket with a file open: nothing changes. Otherwise the open file is closed and dropped, the directory is created, and the bucket's file `Dir + Prefix + "." + key + ".log"` is opened fresh and recorded with its key. A denied directory or file panics with the file dropped and the date kept |
| FileSink.FileWriter.Write | file.go:87-92 | initFile runs first: the same handle is reused when the bucket is unchanged, otherwise the old file is closed, the directory exists afterwards and a fresh handle is opened. Then p is appended to the bucket's file as one write, whose count and error are returned. An initFile panic writes nothing, and the directory set is what initFile left |
| FileSink.FileWriter.ClearLogFile | file.go:144-154 | every listed plain file whose modification time plus MaxDay-1 days is strictly before now is removed, unless its removal fails, and no other file changes; a panicking listing removes nothing |
| FileSink.GetDirFiles | file.go:164-181 | an unreadable directory gives nothing; otherwise the plain-file entries in order. A plain file without metadata panics (nil FileInfo) |
| FileSink.LogFilesMembers | file.go:170-179 | a file is listed exactly when a non-directory entry with that name, modification time and size exists |
| FileSink.ExpiredPathsExact | file.go:147-153 | a path is swept exactly when some listed file under that name fails the retention test |
| FileSink.Expired | file.go:149 | the intended retention test on unbounded integers: modification time plus MaxDay - 1 days is strictly before now |
| FileSink.ExpiredAsWritten | file.go:149 | the retention test as written: the MaxDay - 1 day Duration wraps in int64 before it is added to the modification time |
| FileSink.WrapInt64 | file.go:149 | int64 wrap-around: the result lies in [-2^63, 2^63) and is congruent to the input modulo 2^64 |
| FileSink.ExpiredAsWrittenAgrees | file.go:149 | for MaxDay from 1 to 106752, the int64 product does not wrap, and the written test is the intended one |
| FileSink.ExpiredAsWrittenOverflow | file.go:149 | at MaxDay 106753 the Duration wraps to -9223371273709551616, and a file modified 1 ns ago is deleted although it is within the retention window |
| FileSink.MkdirModeAsWritten | file.go:103 | the decimal 755 passed to MkdirAll is octal 1363, whose owner bits lack read permission under every umask; under umask 022 the directory gets mode 0341 |
| FileSink.MkdirModeIntended | file.go:103 | octal 0755 gives the owner read and search permission under any umask that spares the owner bits; under umask 022 the mode is 0755 |
| Std.VerbsShape | std.go:94-100 | `"%v"` repeated n times has length 2n with a verb at every even offset; n = 0 gives `""` |
| Std.GetFormat | std.go:94-100 | the loop's buffer is `"%v"` repeated length times |
| Std.Package.Init | std.go:11-14 | the default Logger has level Test, colour on, call depth 3 (New's 2 plus 1), standard output as writer, and the standard flags |
| Std.Package.SetColor | std.go:17-20 | only std's colour changes, and std itself is returned |
| Std.Package.SetWriter | std.go:22-25 | only std's writer changes, and std itself is returned |
| Std.Package.Info | std.go:29-31 | std.Info's behaviour with the format of one `%v` per argument |
| Std.Package.Debug | std.go:34-36 | std.Debug's behaviour with one `%v` per argument |
| Std.Package.Error | std.go:39-41 | std.Error's behaviour with one `%v` per argument |
| Std.Package.Warn | std.go:44-46 | std.Warn's behaviour with one `%v` per argument |
| Std.Package.Fatal | std.go:49-51 | std.Fatal's behaviour with one `%v` per argument: write, then exit -1 |
| Std.Package.Panic | std.go:54-56 | std.Panic's behaviour with one `%v` per argument: write, then panic with the message |
| Std.Package.Notice | std.go:59-61 | std.Notice's behaviour with one `%v` per argument |
| Std.Package.Infof | std.go:65-67 | std.Info's behaviour with the caller's format unchanged |
| Std.Package.Noticef | std.go:69-71 | std.Notice's behaviour with the caller's format unchanged |
| Std.Package.Debugf | std.go:73-75 | std.Debug's behaviour with the caller's format unchanged |
| Std.Package.Warnf | std.go:77-79 | std.Warn's behaviour with the caller's format unchanged |
| Std.Package.Errorf | std.go:81-83 | std.Error's behaviour with the caller's format unchanged |
| Std.Package.Panicf | std.go:85-87 | std.Panic's behaviour with the caller's format unchanged |
| Std.Package.Fatalf | std.go:89-91 | std.Fatal's behaviour with the caller's format unchanged |

## Left out

- http.go: a network client; nothing of it is part of this model.
- The startTimer and timer goroutines (file.go:117-142) and the `go` statements of NewFileWriter: concurrency and wall-clock scheduling. The sweep is a method called with an instant and a directory listing; `nextSecond` belongs only to the timers.
- `sync.Mutex` in FileWriter.Write: each call is treated as atomic.
- The `sync.Pool` objects in output: each call uses a fresh LogContent and buffer. Because the source does not reset a pooled LogContent, fields from an earlier call can survive: Prefix (set only when non-empty), Time (set only under the time flags), LevelInt (set only under LogLevel) and File (set only under the file flags), for instance after SetFlag has cleared those flags. That case is not modelled.
- Pooled buffers: a reused buffer is Reset before each use in the code, so reusing one changes nothing.
- `time.Now`, `runtime.Caller`, `fmt.Sprintf` and `json.Marshal`: parameters of the model (`Env`, and the `now` of the file sink), not reimplemented.
- `time.Format`: only the tokens 2006, 01, 02, 15, 04 and 05 are modelled, and years only up to four digits.
- Time zones and Go's calendar are not modelled.
- `Time.Add`: modelled as exact integer addition. Go's Time.Add saturates only when the seconds count overflows int64, about 292 billion years out. The narrower int64 range of `time.Duration`, about 292 years, is where the retention test wraps (Findings).
- `filepath.Dir`: its `Clean` step (removing `.`, `..` and doubled separators) is not modelled.
- `filepath.Join`: the log path is `Dir + name`. This names the same file, but not the same string, as the cleaned path.
- FileSink.FileSystem.MkdirAll: directory modes are not modelled, and neither is the creation of intermediate directories. The mode the permission argument yields is stated apart (`MkdirModeAsWritten`, Findings). In the model, a directory clearLogFile cannot read is a listing of `None`.
- File permissions of OpenFile are not modelled. A failure of MkdirAll, OpenFile, Remove or a write is modelled as a fixed set of paths at which that call fails.
- FileSink.Handle.Write: a short write, which stores part of p before it fails, is not modelled; a failing write stores nothing and reports 0.
- Writes after the file was removed: with MaxDay = 1, ClearLogFile deletes every file modified before now, including the open one. Later writes go to the unlinked file, and the model drops them (`Appended`).
- Logger.Output: the model has no "field present iff flag" rule for the text layout, because the code does not behave that way; see above.
- Content.LogContent.Text and Content.Json: a LevelInt outside 0-7 makes the code panic with an index out of range. The model requires a valid level; output only ever stores one of the eight constants.
- `smallLevels` and `LogModule`: defined in the source but never used. They appear as constants only.
- Bytes versus characters: strings are sequences of characters; every separator involved is ASCII.
- Logx.Writer: stands for any `io.Writer`. A Logger writing into a FileWriter is not connected in the model, because the two sinks are separate classes.
- FileSink.FileWriter: StorageType, MaxDay, Dir and Prefix are constants of the object; the code never changes them after NewFileWriter, though Go would allow it. `date` is a variable: the bucket key that initFile records on every bucket change.
- FileSink.FileWriter.ClearLogFile: uses the corrected, unbounded retention test (see Findings). The as-written test is `ExpiredAsWritten`.

## Findings

| source | as written | input that shows it | evidently intended | confidence | as-written member | corrected member |
|---|---|---|---|---|---|---|
| file.go:149 | `modTime.Add(time.Hour * 24 * time.Duration(w.MaxDay-1)).Before(now)` multiplies in int64 Duration, which wraps around for MaxDay > 106752 | MaxDay = 106753: the product 9223372800000000000 wraps to -9223371273709551616, so a file modified 1 ns before now is deleted | keep a file until MaxDay - 1 days after its modification, for any MaxDay | not executed | FileSink.ExpiredAsWrittenOverflow | FileSink.FileWriter.ClearLogFile |
| file.go:103 | `os.MkdirAll(dir, 755)` passes the decimal literal 755, which is octal 1363 | umask 022: the directory is created with mode 0341, so its owner may not read it; os.ReadDir in getDirFiles fails for a process that is not root, and clearLogFile silently deletes nothing | the mode 0755, rwxr-xr-x | not executed | FileSink.MkdirModeAsWritten | FileSink.MkdirModeIntended |
