# logy: a Dafny model of the logging core

logy is a Go logging library in the style of logrus. A caller takes a
`Logger`, attaches key/value fields to an `Entry` with the copy-on-write
`With*` calls, and logs a message at one of seven severity levels. The level
gate decides whether the record is built. An enabled record is a duplicate of
the entry stamped with the time, level, message and (optionally) the calling
frame. It borrows a scratch buffer from a pool, and the `TextFormatter`
renders it as space-separated `key=value` tokens ending in a newline. A
logger can also rotate its log file once the file grows past a size limit.
The package keeps a list of exit handlers that `Exit` runs before the
process ends.

This project models that core in Dafny and proves what it promises:

- `base.dfy` (module `Base`): levels, field values, timestamps, frames. It
  also holds `Host`, the record of library and runtime functions the core
  calls without defining them.
- `strings.dfy` (module `Strings`): `strings.LastIndex`, Go's string order,
  `sort.Strings` (an insertion sort proved sorted and a permutation), joining.
- `buffers.dfy` (module `Buffers`): `bytes.Buffer` and the buffer pool, as
  classes.
- `entry_data.dfy` (module `EntryData`): the merge loop of `WithFields`, as
  written, with its line-130 behaviour, proved equal to a loop-free
  description; `getPackageName`.
- `logy.dfy` (module `Logy`): the `Entry` value with its `With*` calls, `log`,
  `Log` and the level wrappers; the `Logger` class with its configuration,
  setters, level gate, entry pool, `Exit`, the rotation decision and the
  rotation file names.
- `text_formatter.dfy` (module `TextFormat`): the `TextFormatter` class: `init`,
  `needsQuoting`, `appendValue`, `appendKeyValue` and `Format`. Each is proved
  against a specification function of the formatter's options.
- `exit_handlers.dfy` (module `ExitHandlers`): the handler list of `sys.go`.

Go map iteration order is unspecified. `WithFields` takes the order in which
the incoming map is visited as a parameter: with several refused keys, the
error text depends on it. `Format` collects the user keys with a
nondeterministic choice, and its contract says the output is the rendering for
some enumeration of the keys. `FormatDeterministic` then shows that the choice
does not matter unless sorting is disabled.

In four places the code does not do what a reader would expect; the model
follows the code:

- Several refused fields in one `WithFields` call do not build a comma-joined
  list. Each later refusal is appended to the receiver's original error, not
  to the running text (entry.go:130). Only the receiver's error and the last
  refusal survive, and an empty receiver error yields text that starts with
  ", ".
- With a custom `SortingFunc` set, the user keys are handed to it but never
  appended to the rendered keys (initformatter.go:125-132). Only the fixed
  keys are rendered.
- The archive `zipFile` writes is named after the active file's base name plus
  ".zip" (logger.go:126-127), not after the renamed backup.
- A `Log` call that panics skips `releaseEntry` (logger.go:223-225), so the
  borrowed entry does not return to the pool.

## Model

| member | source | states |
|---|---|---|
| EntryData.CannotAdd | entry.go:128 | the refusal text is "can not add field " followed by the `%q` form of the key |
| EntryData.MergeLoop | entry.go:118-137 | the merge loop as written, later refusals building on the receiver's error (line 130): the loop never drops a key already in the map, and a non-empty error text stays non-empty |
| EntryData.MergeLoopData | entry.go:114-137 | the merge loop's map is the receiver's map overridden by every visited field that is not a function |
| EntryData.MergeLoopErr | entry.go:118-133 | the merge loop's error text is unchanged with no refusal, is the bare refusal for a single refusal on an empty text, and is otherwise the receiver's error, ", " and the last refusal only |
| EntryData.MergeFields | entry.go:113-139 | the merged map is the old map overridden by every accepted field; the error text is the text described by `ErrAfter` for the refused keys in visiting order |
| EntryData.PackageName | entry.go:152-164 | the result is a prefix of the name with no '.' after its last '/'; nothing at or after a '/' is cut; a shortened result stops just before a '.'; a name with no '.' after its last '/' is kept whole |
| EntryData.PackageNameUnique | entry.go:152-164 | those properties determine the package name: any prefix that has them is the result |
| EntryData.PackageNameIdempotent | entry.go:152-164 | trimming twice is trimming once |
| Strings.LastIndexOf | entry.go:154-155 | the position of the last occurrence of the character, or -1 when it does not occur |
| Strings.SortStrings | initformatter.go:123 | `sort.Strings`: the result is sorted in Go's string order and is a permutation of the input |
| Strings.SortedUnique | initformatter.go:123 | two sorted permutations of the same keys are equal, so the sorted order does not depend on the map's order |
| Logy.NewEntry | entry.go:61-67 | a new entry has the given logger, no fields, zero time, no context and no error, and `Dup` leaves it unchanged |
| Logy.Entry.Dup | entry.go:69-75 | the copy keeps the logger, fields, time, context and error, and resets level, message, caller and buffer |
| Logy.Entry.WithFields | entry.go:113-139 | the result carries logger, time and context and resets the per-call parts. Its fields are the receiver's overridden by every non-function field. A refused key keeps its old value or stays absent, and no function value is stored. The error text is as `ErrAfter` describes, and it is unchanged when no value is a function |
| Logy.Entry.WithField | entry.go:108-110 | a non-function value is stored under the key with the error unchanged; a function value leaves the fields alone and sets the error to the refusal, after the old error and ", " if there was one |
| Logy.Entry.WithError | entry.go:94-96 | the error value is stored under `ErrorKey` unless it is a function |
| Logy.Entry.WithContext | entry.go:99-105 | the result is the entry's duplicate carrying the new context |
| Logy.Entry.WithTime | entry.go:142-148 | the result is the entry's duplicate carrying the new time |
| Logy.Entry.HasCaller | entry.go:203-207 | true exactly when the entry has a logger that reports callers and a caller frame |
| Logy.Entry.GetBufferPool | entry.go:249-254 | the logger's own pool when it has one, else the package's default pool |
| Logy.Entry.Finalized | entry.go:212-228 | the record `log` renders keeps the logger, fields, context and error; carries the level and message; keeps a non-zero time and otherwise takes the current time; has a caller only when the logger reports callers |
| Logy.Entry.Emit | entry.go:209-247 | `log` produces the finalized record, panics exactly at `PanicLevel` (the most severe level, 0), and leaves the pool with the borrowed buffer back on top, emptied, and every other buffer's content unchanged |
| Logy.Entry.Log | entry.go:300-304 | a record is produced exactly when the logger's level enables the level, from the `fmt.Sprint` text of the arguments; a disabled level leaves the buffer pool and its buffers untouched, an enabled one leaves the borrowed buffer back, emptied |
| Logy.Entry.Trace | entry.go:306-308 | `Log` at `TraceLevel`: the record exactly when enabled, the buffer pool untouched when disabled and the borrowed buffer back, emptied, when enabled |
| Logy.Entry.Debug | entry.go:310-312 | `Log` at `DebugLevel`: the record exactly when enabled, the buffer pool untouched when disabled and the borrowed buffer back, emptied, when enabled |
| Logy.Entry.Print | entry.go:314-316 | `Log` at `InfoLevel`: the record exactly when enabled, the buffer pool untouched when disabled and the borrowed buffer back, emptied, when enabled |
| Logy.Entry.Info | entry.go:318-320 | `Log` at `InfoLevel`: the record exactly when enabled, the buffer pool untouched when disabled and the borrowed buffer back, emptied, when enabled |
| Logy.Entry.Warn | entry.go:322-324 | `Log` at `WarnLevel`: the record exactly when enabled, the buffer pool untouched when disabled and the borrowed buffer back, emptied, when enabled |
| Logy.Entry.Warning | entry.go:326-328 | `Log` at `WarnLevel`: the record exactly when enabled, the buffer pool untouched when disabled and the borrowed buffer back, emptied, when enabled |
| Logy.Entry.Error | entry.go:330-332 | `Log` at `ErrorLevel`: the record exactly when enabled, the buffer pool untouched when disabled and the borrowed buffer back, emptied, when enabled |
| Logy.Entry.Fatal | entry.go:334-337 | logs at `FatalLevel` when enabled, never panics, then calls the logger's exit function with 1 whether or not the level was enabled; the buffer pool is untouched when disabled and gets the borrowed buffer back, emptied, when enabled |
| Logy.Entry.Panic | entry.go:339-341 | always produces the record and always panics, and the borrowed buffer is back in the pool, emptied |
| Logy.RefusedKeepsOld | entry.go:127-136 | a refused key keeps its old value or stays absent, and no function value enters a map free of them |
| Logy.NoFuncNoRefusal | entry.go:118-138 | with no function among the incoming values nothing is refused, so the error text is unchanged |
| Logy.WithFieldIsWithFields | entry.go:94-96 | `WithField(k, v)` equals `WithFields` of the one-field map, and `WithError(e)` equals `WithField("error", e)` |
| Logy.WithFieldsKeepsLastRefusal | entry.go:127-133 | with two or more refusals in one call, the error text is the receiver's error, ", " and the last refusal; with an empty receiver error it starts with ", " |
| Logy.FinalizedFromNewEntry | entry.go:212-219 | a record logged from a fresh entry has no fields, no error, the current time and the given level |
| Logy.Logger.New | logger.go:73-85 | the defaults: no file output, `InfoLevel`, no caller reporting, directory "./", file "app.log", size limit 10240, `os.Exit`, standard error, the text formatter, an empty entry pool |
| Logy.Logger.NewEntryFromPool | logger.go:87-93 | returns the most recently pooled entry and removes it, or a new entry when the pool is empty; either way a fresh entry of this logger |
| Logy.Logger.ReleaseEntry | logger.go:95-98 | pools the entry with its fields cleared |
| Logy.Logger.WithField | logger.go:101-105 | the result is `WithField` on a fresh entry of the logger, and the pool keeps only fresh entries |
| Logy.Logger.WithFields | logger.go:108-112 | the result is `WithFields` on a fresh entry of the logger, and the pool keeps only fresh entries |
| Logy.Logger.WithError | logger.go:114-118 | the result is `WithError` on a fresh entry of the logger, and the pool keeps only fresh entries |
| Logy.Logger.WithContext | logger.go:168-172 | the result is `WithContext` on a fresh entry of the logger, and the pool keeps only fresh entries |
| Logy.Logger.WithTime | logger.go:175-179 | the result is `WithTime` on a fresh entry of the logger, and the pool keeps only fresh entries |
| Logy.Logger.CheckLogSize | logger.go:207-218 | rotate exactly when the stat succeeds and the size is strictly above the limit; a failed stat never rotates |
| Logy.Logger.CutFilePaths | logger.go:120-127 | the active path is the directory joined with the base name. The backup path is the directory joined with the base name, "_", the time stamp and ".log". The archive is the base name plus ".zip". A failed stat yields no names |
| Logy.Logger.Log | logger.go:221-227 | a record is produced exactly when the level is enabled, from a fresh entry, panicking exactly at `PanicLevel`; a disabled level touches neither the entry pool nor the buffer pool; an enabled one gets its buffer back emptied, and the borrowed entry returns to the entry pool unless the call panicked, in which case it stays out |
| Logy.Logger.LogFn | logger.go:229-235 | the argument function is called exactly when the level is enabled, and a record is produced exactly then, from its values; the pools end up as after `Log` |
| Logy.Logger.LogThroughPooledEntry | logger.go:223-225 | the enabled branch of `Log`: a record from the borrowed entry, its buffer returned emptied, and the entry back in the pool unless the call panicked |
| Logy.Logger.Trace | logger.go:237-239 | `Log` at `TraceLevel`, with everything `Log` leaves behind: a disabled call touches neither pool, an enabled one gets its buffer back emptied and returns the entry to the pool |
| Logy.Logger.Debug | logger.go:241-243 | `Log` at `DebugLevel`, with everything `Log` leaves behind: a disabled call touches neither pool, an enabled one gets its buffer back emptied and returns the entry to the pool |
| Logy.Logger.Info | logger.go:245-247 | `Log` at `InfoLevel`, with everything `Log` leaves behind: a disabled call touches neither pool, an enabled one gets its buffer back emptied and returns the entry to the pool |
| Logy.Logger.Warn | logger.go:249-251 | `Log` at `WarnLevel`, with everything `Log` leaves behind: a disabled call touches neither pool, an enabled one gets its buffer back emptied and returns the entry to the pool |
| Logy.Logger.Warning | logger.go:253-255 | `Log` at `WarnLevel`, with everything `Log` leaves behind: a disabled call touches neither pool, an enabled one gets its buffer back emptied and returns the entry to the pool |
| Logy.Logger.Error | logger.go:257-259 | `Log` at `ErrorLevel`, with everything `Log` leaves behind: a disabled call touches neither pool, an enabled one gets its buffer back emptied and returns the entry to the pool |
| Logy.Logger.Fatal | logger.go:261-264 | logs at `FatalLevel` with everything `Log` leaves behind, then calls the exit function with 1 whatever the level |
| Logy.Logger.Panic | logger.go:266-268 | logs at `PanicLevel` and always panics; the borrowed entry stays out of the entry pool and the buffer is back, emptied |
| Logy.Logger.Exit | logger.go:271-277 | installs `os.Exit` when no exit function is set, keeps an installed one, and calls it with the code |
| Logy.Logger.Setifwf | logger.go:279-283 | sets the file-output flag and nothing else |
| Logy.Logger.SetFilepn | logger.go:286-291 | the first argument becomes the file name and the second the directory |
| Logy.Logger.SetmaxFileSize | logger.go:293-297 | sets the size limit and nothing else |
| Logy.Logger.SetNoLock | logger.go:299-301 | disables the lock |
| Logy.Logger.SetLevel | logger.go:308-310 | after setting a level, `GetLevel` returns it |
| Logy.Logger.GetLevel | logger.go:303-315 | the configured level is enabled, and exactly the levels at or below it are enabled |
| Logy.Logger.IsLevelEnabled | logger.go:318-320 | enabled exactly when the configured level is at least the given one; `PanicLevel` is always enabled |
| Logy.Logger.SetFormatter | logger.go:323-327 | sets the formatter and nothing else |
| Logy.Logger.SetOutput | logger.go:330-334 | sets the output and nothing else |
| Logy.Logger.SetReportCaller | logger.go:336-340 | sets caller reporting and nothing else |
| Logy.Logger.SetBufferPool | logger.go:343-347 | sets the buffer pool and nothing else |
| Logy.BackupName | logger.go:188-190 | the backup name is the base name, "_", the stamp and ".log", each at its place |
| Logy.ArchiveName | logger.go:126-127 | the archive name is the base name followed by ".zip" |
| Logy.BackupNamesDistinct | logger.go:188-198 | the backup name differs from the archive name and from the base name, and different stamps give different backups |
| Logy.LevelGateMonotone | logger.go:318-320 | a logger that emits at some level emits at every more severe level |
| Logy.CheckLogSizeBoundary | logger.go:214-217 | a file exactly at the limit is kept, a larger one is rotated, a failed stat is not |
| TextFormat.Appended | initformatter.go:200-203 | a token follows the buffer after a single space, or directly when the buffer is empty |
| TextFormat.RenderJoins | initformatter.go:153-172 | rendering non-empty tokens yields them joined by single spaces, after the buffer's content and a space when it had any |
| TextFormat.RenderExtends | initformatter.go:153-172 | rendering only appends: what the buffer held stays a prefix |
| TextFormat.Config.CallerTexts | initformatter.go:105-111 | without a caller both caller texts are empty |
| TextFormat.Config.Tokens | initformatter.go:153-172 | one token per key |
| TextFormat.Config.TokenAt | initformatter.go:153-171 | the token at each position is the `key=value` token of the key at that position, with the value the key selects |
| TextFormat.TextFormatter.constructor | initformatter.go:33-66 | a formatter with every option off and `init` not yet run |
| TextFormat.TextFormatter.Init | initformatter.go:68-76 | the level width becomes the maximum of its old value and the rune counts of every level's text |
| TextFormat.TextFormatter.InitOnce | initformatter.go:144 | `init` runs the first time only; afterwards the width is unchanged |
| TextFormat.MaxLevelText | initformatter.go:68-76 | the result is at least the start and every level text's length, and is one of them |
| TextFormat.TextFormatter.NeedsQuoting | initformatter.go:179-198 | the answer is exactly the quoting precedence: force-quote, then quote-empty on empty text, then disable-quote, then any character outside `[a-zA-Z0-9-._/@^+]` |
| TextFormat.QuotingPrecedence | initformatter.go:179-198 | empty text is not quoted under the default flags; force-quote quotes everything; disable-quote turns quoting off unless an earlier rule applies; text of safe characters is unquoted without force-quote |
| TextFormat.TextFormatter.AppendValue | initformatter.go:209-223 | appends the value's text (a Go string as it is, anything else through `fmt.Sprint`), `%q`-quoted exactly when quoting is required |
| TextFormat.TextFormatter.AppendKeyValue | initformatter.go:200-207 | appends the `key=value` token, after a space only when the buffer was not empty |
| TextFormat.TextFormatter.CollectKeys | initformatter.go:87-90 | the keys collected are the map's keys, each exactly once |
| TextFormat.TextFormatter.CallerValues | initformatter.go:106-111 | the caller prettyfier's texts when one is set, else the frame's function and `file:line` |
| TextFormat.TextFormatter.CollectFixedKeys | initformatter.go:92-119 | the fixed keys, in the specified order |
| TextFormat.FixedKeysShape | initformatter.go:94-119 | time comes first unless disabled, else level; level is always present; the message and error keys are present when their texts are; there are 1 to 6 keys, at most 4 without a caller |
| TextFormat.TextFormatter.OrderKeys | initformatter.go:87-135 | the key list is the fixed keys followed by the user keys, which are sorted, dropped when a `SortingFunc` is set, or kept in the map's order when sorting is disabled |
| TextFormat.SortedUserKeys | initformatter.go:121-124 | with sorting on and no `SortingFunc`, the user keys follow the fixed keys ascending, each once, whatever order the map gave |
| TextFormat.UnsortedKeyOrders | initformatter.go:125-135 | with a `SortingFunc` only the fixed keys are rendered; with sorting disabled the user keys follow in the map's order |
| TextFormat.TextFormatter.BufferFor | initformatter.go:137-142 | the entry's buffer when it has one, else a new empty buffer |
| TextFormat.TextFormatter.RenderKeys | initformatter.go:153-172 | the buffer ends up as its old content with every key's token appended in order |
| TextFormat.TextFormatter.WriteLine | initformatter.go:146-176 | the output is the rendering of the ordered keys after the buffer's content, ending in a newline, and the buffer holds it |
| TextFormat.TextFormatter.Format | initformatter.go:79-177 | the output is the rendering of the entry for some enumeration of its user keys, after what the entry's buffer held. The entry's buffer holds the output, which ends in a newline. `init` has run exactly once |
| TextFormat.FormatDeterministic | initformatter.go:121-132 | unless sorting is disabled, the output does not depend on the map's order |
| TextFormat.FormatExtendsBuffer | initformatter.go:137-176 | the output keeps what the buffer held as a prefix and is longer than it |
| TextFormat.RenderingIsJoinedTokens | initformatter.go:153-175 | a line rendered into an empty buffer is the tokens joined by single spaces, then a newline |
| ExitHandlers.RunHandler | sys.go:10-18 | a handler's run is recovered exactly when the handler panics |
| ExitHandlers.RunTrace | sys.go:20-24 | one run per handler, in list order |
| ExitHandlers.RunTraceAppend | sys.go:20-24 | running a concatenation runs the first list, then the second |
| ExitHandlers.Registry.constructor | sys.go:8 | the handler list starts empty |
| ExitHandlers.Registry.Register | sys.go:31-33 | appends the handler at the end |
| ExitHandlers.Registry.Defer | sys.go:34-36 | puts the handler at the front and keeps the rest in order |
| ExitHandlers.Registry.RunHandlers | sys.go:20-24 | runs every handler once in order, a panicking one being recovered, and leaves the list unchanged |
| ExitHandlers.Registry.Exit | sys.go:27-30 | runs all handlers, then ends with the given code |
| ExitHandlers.RegisterRunsLast | sys.go:31-36 | a registered handler runs last and a deferred one runs first |

## Left out

- `write` (entry.go:257-295), `zipFile`'s archive writing (logger.go:128-164) and the close, rename and reopen steps of `cutFile` (logger.go:193-204): file I/O. Only the rotation decision and the names are modelled.
- `getCaller` (entry.go:167-201): stack introspection. Its result is the `caller` value of `Host`.
- `Entry.Bytes` and `Entry.String` (entry.go:77-91): they call whichever formatter the logger holds. The logger's formatter is an opaque choice, and `TextFormatter.Format` is modelled on its own.
- Concurrency: the logger's mutex, the atomic level load and store, and `terminalInitOnce` become plain sequential state. `SetNoLock` only records that the lock is off.
- `sync.Pool`: the entry pool and the buffer pool are modelled as last-in, first-out lists. A real pool may drop entries or hand out any of them.
- Foreign functions are parameters in `Host`: `fmt.Sprint`, `%q` quoting, `Level.String`, `AllLevels`, `time.Format`, `time.Now`, `path.Join` and `defaultTimestampFormat`. `FieldMap.resolve`, `prefixFieldClashes` and `CallerPrettyfier` are uninterpreted functions. The first two are not defined in initformatter.go.
- `os.Exit` and Go's `panic` are outcomes: an `ExitCall` value, an exit status and a `panicked` flag.
- Text is modelled as characters, not UTF-8 bytes, so a rune count is a length.
- `FullTimestamp`, `DisableLevelTruncation`, `PadLevelText`, `isTerminal` and the colour constants: they are held in the options but nothing in the core reads them.
- Entries are values: aliasing between an entry handed out and the same entry sitting in the pool is not captured. `Format` cannot change an entry's fields, because the entry is a value.
- Logy.Entry.GetBufferPool, Logy.Entry.Finalized, Logy.Entry.Emit, Logy.Entry.Log and the entry's level methods (Trace, Debug, Print, Info, Warn, Warning, Error, Fatal, Panic) require an entry with a logger. An entry without one (`NewEntry(nil)`, entry.go:61) makes `Log` panic on a nil dereference (entry.go:301, logger.go:304), and the model does not capture that crash.
- TextFormat.TextFormatter.OrderKeys does not call the `SortingFunc` (initformatter.go:130), which is modelled as a bare identity. Its result is never read, so the output is as stated, but a sorter that panics or has side effects is not captured.
- `ErrorKey` is a constant. Reassigning the Go variable is not modelled.
- The logger's `fileObj` and `errFileObj` handles are not modelled, because only `write` and `cutFile` use them.
- The package-level exit functions `RegisterExitHandler`, `DeferExitHandler` and `Exit` act on one `Registry` object rather than a global variable.
- TextFormat.Config.CallerTexts: its contract states only the no-caller case; the texts with a caller are stated by `CallerValues`.
