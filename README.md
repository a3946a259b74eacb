# go-watchfile in Dafny

A model of the two polling watchers of `go-watchfile` and of the option flags
that steer them:

- **The HTTP watcher** (`http_watcher.go`). It keeps a local copy of a remote
  file. On each tick it may probe the URL with `HEAD`. It then issues `GET`
  and rejects the answer as "not modified" when any enabled validator says so:
  the 304 status, a `Last-Modified` not after the stored one, an equal `ETag`,
  or an equal MD5 digest of the body. Otherwise it writes the body to the
  local path. Then it updates the stored validators and, with `CheckETag`,
  writes the ETag to the hidden sidecar file `.<name>.etag` beside the local
  file. `EnsureLocal` adopts an existing local file, reading its sidecar
  ETag. `Start` seeds the state, and `Stop` refuses a watcher that is not
  running.
- **The local watcher** (`local_watcher.go`). It polls a path. A modification
  time not after the stored one is ignored. With `CheckMD5`, an unchanged
  content digest is ignored too. Otherwise the change is accepted and
  reported. Failed stats and reads are reported to the callback.
- **The options** (`option.go`). They are four single-bit flags, queried with
  `option & flag > 0`.

Layout:

| file | module | contents |
|---|---|---|
| `wrappers.dfy` | `Wrappers` | `Option`, `Result` |
| `option.dfy` | `Options` | the flags as `bv64` and their queries |
| `common.dfy` | `Common` | bytes, the 16-byte digest, the errors, the callback record, the platform functions (MD5, base64, HTTP dates), string/byte conversion |
| `paths.dfy` | `Paths` | `Dir`, `Base`, `Join` and the sidecar path |
| `disk.dfy` | `Disk` | the file system as a class holding a map of files; each read and write takes its own failure input, and a failed write may leave a truncated file |
| `http_watcher.dfy` | `HttpWatcher` | the decision functions, the `HTTPWatcher` class and `NewHTTPWatcher` |
| `http_properties.dfy` | `HttpProperties` | lemmas about the HTTP watcher |
| `local_watcher.dfy` | `LocalWatcher` | the tick function, the loop, the `LocalWatcher` class and `NewLocalWatcher` |

Representation choices:

- Times are nanoseconds since Go's zero `time.Time`, the precision at which
  Go compares them, and 0 stands for the zero time itself. Durations are
  nanoseconds too.
- A header is a string, and `""` means absent. Go's `Header.Get` returns
  `""` for a missing header, and the code only tests for `""`.
- What the network delivers is a parameter: a `Transfer` is a request that
  could not be built, a send that failed, or a received `Response` whose body
  may fail to read.
- The same holds for the wall clock (`now`) and for the results of
  `os.Stat` and `ioutil.ReadFile` in the local watcher.
- Whether a file read fails, and how a file write fails, are inputs of each
  call, and each tick of the loop carries its own. A write can fail at open,
  changing nothing, or after `ioutil.WriteFile` has truncated the file,
  leaving a prefix of the data (`Disk.WriteFault`).
- MD5, base64 decoding and HTTP-date parsing are functions held in a
  `Platform` value. Nothing is assumed about them.
- Every callback invocation is returned as a `Callback` value. The polling
  loops take a finite schedule of events (a timer tick carrying its inputs,
  or a stop request) and return the callback arguments in order. The
  deferred `running = false` is applied when a stop request is reached.
- Each state-changing method is proved against a function on the old state:
  - `DownloadSpec`, built from `DownloadCheck` and `Persist`;
  - `EnsureLocalSpec`;
  - `StartSpec`;
  - `TickSpec` and `Run`;
  - `LocalTick` and `LocalWatcher.Run`.

  The lemmas are stated about those functions.

Where the code and its description differ, the model follows the code:

- `HTTPWatcher.Start` never sets `running`. The model keeps that, so
  `HTTPWatcher.Stop` on a started watcher still returns the "stopped" error.
- When `Last-Modified` is absent, the stored time becomes `now`, even if
  that is earlier than the stored one (`MissingLastModifiedTakesNow`).
- When the sidecar write fails, the validators in memory have already been
  updated (`DownloadSpec`, the `SaveETagFailed` case).
- `EnsureLocal` on an existing file seeds only the ETag, never the time or the
  digest. So the first tick downloads again unless another validator stops it.
- `Start` runs `EnsureLocal` before it checks `running`.

## Model

| member | source | states |
|---|---|---|
| Options.FlagsAreDistinctBits | option.go:5-10 | the four constants are the single bits 1<<0 … 1<<3 and pairwise disjoint |
| Options.QueriesSeparateFlags | option.go:5-26 | each of the four queries (`o & flag > 0`) answers true for its own constant and false for the other three |
| Options.ZeroSelectsNothing | option.go:12-26 | the zero option word enables no check |
| Options.AddModTime | local_watcher.go:41 | setting CheckModTime in o enables the mod-time check and leaves the other three queries as they were |
| Options.AddMD5 | option.go:5-26 | setting CheckMD5 enables the digest check and leaves the other queries unchanged |
| Options.AddETag | option.go:5-26 | setting CheckETag enables the ETag check and leaves the other queries unchanged |
| Options.AddHead | option.go:5-26 | setting CheckHead enables the HEAD probe and leaves the other queries unchanged |
| Common.ToBytes | http_watcher.go:255 | `[]byte(s)` keeps the length of a string of byte-sized characters |
| Common.FromBytes | http_watcher.go:70 | `string(content)` keeps the length and yields byte-sized characters |
| Common.BytesRoundTrip | http_watcher.go:70 | converting bytes to a string and back gives the same bytes |
| Common.StringRoundTrip | http_watcher.go:255 | an ETag written as bytes reads back as the same string |
| Paths.LastSlash | http_watcher.go:68 | the index of the last `/`, or -1: the character there is `/` and none follows it |
| Paths.SidecarIsNotLocal | http_watcher.go:68 | the sidecar path never equals the local path, so writing one cannot clobber the other |
| Paths.JoinDir | http_watcher.go:68 | for a path whose directory part is neither `.` nor a bare `/` (`PlainDir`), `Join(Dir(p), name)` is the prefix of p up to its last slash, followed by name |
| Paths.SidecarShape | http_watcher.go:68 | for a `PlainDir` path, the sidecar inserts `.` before its base name and appends `.etag` |
| Paths.SidecarIsNeighbour | http_watcher.go:254 | for a `PlainDir` path, the sidecar lives in the same directory as the local file and its base name is `.<base>.etag` |
| Paths.SidecarOfExample | http_watcher_test.go:53-64 | the sidecar of `example.txt` is `.example.txt.etag` |
| Disk.FileSystem.Stat | http_watcher.go:66 | stat succeeds exactly for existing files |
| Disk.FileSystem.ReadFile | http_watcher.go:69 | a read succeeds exactly for an existing file when this read does not fail, and returns its content |
| Disk.AfterWrite | http_watcher.go:242-244 | a successful write puts the data at the path; a write that fails at open changes nothing; any failed write leaves the path as it was or holding a prefix of the data (`ioutil.WriteFile` truncates on open); no other path ever changes |
| Disk.FileSystem.WriteFile | http_watcher.go:242-244 | reports `WriteFailed(path)` exactly when a fault occurs, and leaves the files as `AfterWrite` describes |
| HttpWatcher.CheckHead | http_watcher.go:128-182 | the HEAD probe's outcome: request errors, 304, bad status, an unparsable Last-Modified and (once Last-Modified passed) an undecodable Content-MD5 reported as such; a stored ETag that comes back unchanged, once those checks passed, gives "not modified"; no error exactly when the status is 200/204 and every enabled validator differs; "not modified" only when 304 or some check matched |
| HttpWatcher.DownloadCheck | http_watcher.go:184-238 | the GET check phase: request errors, 304, bad status, an unparsable Last-Modified, and an unreadable body once Last-Modified and ETag passed, each reported as such; "not modified" only when 304 or some validator matched; a save exactly when the status is 200/204, the validators all differ and the body is read; the saved content, digest, time (Last-Modified, or now when absent) and ETag |
| HttpWatcher.Persist | http_watcher.go:240-259 | a failed local write is reported, keeps the validators, and leaves the local file as it was or truncated to a prefix of the body (as it was when the open failed); otherwise the file holds the body and the validators are updated per flag; without CheckETag only the local file changes; with it, success also puts the ETag bytes in the sidecar, and a failed sidecar write is reported after the local file and validators were updated, leaving the sidecar as it was or holding a prefix; no other path ever changes |
| HttpWatcher.DownloadSpec | http_watcher.go:184-260 | `download` end to end: a check-phase error leaves file system and validators untouched; a failed local write keeps the validators and leaves the local file as it was or holding a prefix of the body; success leaves the body in the local file and, with CheckMD5, its digest stored; a failed sidecar write still leaves the body saved and the ETag stored |
| HttpWatcher.EnsureLocalSpec | http_watcher.go:65-76 | an existing local file is adopted, taking the ETag from the sidecar when CheckETag is on and the sidecar reads; otherwise the file is downloaded |
| HttpWatcher.StartSpec | http_watcher.go:78-91 | with a zero stored time, EnsureLocal runs first and its error is returned; then "running" is returned exactly when the watcher runs |
| HttpWatcher.TickSpec | http_watcher.go:97-111 | one tick: the callback never receives "not modified"; a nil callback means the body was written; the HEAD probe's outcome short-circuits the download |
| HttpWatcher.CheckHTTPArgs | http_watcher.go:41-63 | the GMT, remote/local and callback checks in that order; success exactly when all pass; the interval is raised to at least a minute and kept when already larger |
| HttpWatcher.HTTPWatcher.constructor | http_watcher.go:54-62 | a new watcher is not running and has no stored validators |
| HttpWatcher.HTTPWatcher.Download | http_watcher.go:184-260 | the method's effect on validators and disk is `DownloadSpec` of the old state |
| HttpWatcher.HTTPWatcher.Save | http_watcher.go:240-259 | the save phase's effect on validators and disk is `Persist` of the old state |
| HttpWatcher.HTTPWatcher.UpdateValidators | http_watcher.go:245-253 | each enabled validator takes the downloaded value and the others keep theirs |
| HttpWatcher.HTTPWatcher.EnsureLocal | http_watcher.go:65-76 | the effect is `EnsureLocalSpec` of the old state |
| HttpWatcher.HTTPWatcher.Start | http_watcher.go:78-91 | the effect is `StartSpec` of the old state, and `running` is left as it was |
| HttpWatcher.HTTPWatcher.Stop | http_watcher.go:118-126 | returns "stopped" exactly when the watcher is not running |
| HttpWatcher.HTTPWatcher.Tick | http_watcher.go:97-111 | the effect and callback are those of `TickSpec` |
| HttpWatcher.HTTPWatcher.WatchHTTP | http_watcher.go:93-116 | the loop's callbacks and final state are those of `Run`, each tick with its own write faults; reaching a stop request clears `running`. In the program as written that branch never fires: `w.stop` is never made (http_watcher.go:54-62) and `running` is never set |
| HttpWatcher.NewHTTPWatcher | http_watcher.go:41-63 | fails with the error `CheckHTTPArgs` picks, otherwise returns a fresh, idle watcher with the clamped interval, the given paths, permissions and options, and the platform functions passed in |
| HttpProperties.NotModifiedStatusChangesNothing | http_watcher_test.go:142-147 | a 304 answer is "not modified" for HEAD and GET and a tick then neither calls back nor changes anything |
| HttpProperties.StaleLastModifiedIsNotModified | http_watcher_test.go:100-120 | with CheckModTime, a Last-Modified that does not parse is reported as bad, and one not after the stored time is "not modified", both without changes |
| HttpProperties.MatchingETagIsNotModified | http_watcher_test.go:149-158 | with CheckETag, an ETag equal to the stored one changes nothing: the download is exactly "not modified", or "bad Last-Modified" exactly when that header is present and does not parse; the HEAD probe is the same, except that an undecodable Content-MD5 after a passing Last-Modified is reported first |
| HttpProperties.MatchingDigestIsNotModified | http_watcher_test.go:159-166 | with CheckMD5, a body whose digest equals the stored one makes the download exactly "not modified", or "bad Last-Modified" exactly when that header is present and does not parse, with nothing changed; a Content-MD5 header decoding to the stored digest does the same for the HEAD probe |
| HttpProperties.MissingLastModifiedTakesNow | http_watcher.go:209-219 | without Last-Modified the stored time becomes `now`, which may be earlier than before |
| HttpProperties.DownloadIdempotent | http_watcher.go:232-238 | with CheckMD5, a second download of the same answer after a successful one is "not modified" and changes nothing |
| HttpProperties.HeadAgreesWithGet | http_watcher.go:128-182 | when the header digest matches the body digest, the HEAD probe passes exactly when GET would save, and otherwise both report the same error |
| HttpProperties.SidecarRoundTrip | http_watcher.go:65-76 | after a successful download with CheckETag, EnsureLocal on a restarted watcher whose sidecar read succeeds recovers the same ETag from the sidecar |
| HttpProperties.SaveWithAllValidators | http_watcher.go:240-259 | with all validators on and all differing and both writes succeeding, the file and sidecar are written and the validators become the parsed time, the body's digest and the ETag |
| HttpProperties.FailedWriteIsRetried | http_watcher.go:242-244 | a failed local write keeps the validators, so the same answer is saved again by a later download whose local write succeeds, repairing a truncated file |
| HttpProperties.FullSuccessExample | http_watcher_test.go:186-216 | the full-success case for `example.txt`: the body lands in `example.txt` and the ETag in `.example.txt.etag` |
| HttpProperties.RunNeverReportsNotModified | http_watcher.go:93-116 | over any schedule the callback never receives "not modified" |
| HttpProperties.TickKeepsDigestCoherent | http_watcher.go:232-247 | with CheckMD5, the stored digest stays the MD5 of the local file across a tick whose local write is not torn (a torn write may truncate the file while the old digest is kept) |
| HttpProperties.RunKeepsDigestCoherent | http_watcher.go:93-116 | the same for the whole loop, when no tick's local write is torn |
| HttpProperties.TickKeepsTagCoherent | http_watcher.go:252-257 | with CheckETag, the sidecar keeps holding the stored ETag across a tick whose sidecar write, if any, succeeds |
| HttpProperties.RunKeepsTagCoherent | http_watcher.go:93-116 | the same for the whole loop, when every tick's sidecar write succeeds |
| LocalWatcher.CheckLocalArgs | local_watcher.go:31-49 | empty path, then missing callback; success exactly when both are present; the interval is at least a second and kept when larger; CheckModTime is forced on and the other flags are kept |
| LocalWatcher.LocalTick | local_watcher.go:78-101 | a failed stat is reported; a time not after the stored one is ignored; with CheckMD5 a failed read is reported and an unchanged digest is ignored without a callback; a nil callback exactly when the time is newer and (with CheckMD5) the digest differs, and then the state takes the new time and digest; otherwise nothing changes |
| LocalWatcher.RunAdvancesModTime | local_watcher.go:74-107 | the stored time never decreases and strictly increases whenever a change was reported |
| LocalWatcher.TouchWithoutEditIsSilent | local_watcher.go:89-99 | with CheckMD5, while the content keeps the stored digest the only callbacks are failed stats and reads, and the state stays unchanged |
| LocalWatcher.UnchangedTimestampIsSilent | local_watcher.go:80-87 | while the modification time never passes the stored one, only failed stats reach the callback and nothing changes |
| LocalWatcher.LocalWatcher.constructor | local_watcher.go:42-48 | a new watcher is not running and has no stored observations |
| LocalWatcher.LocalWatcher.Start | local_watcher.go:51-72 | refuses a running watcher; otherwise the stat error, or the time seeded, then (with CheckMD5) the read error or the digest seeded; only full success marks it running |
| LocalWatcher.LocalWatcher.Stop | local_watcher.go:109-117 | returns "stopped" exactly when the watcher is not running |
| LocalWatcher.LocalWatcher.Tick | local_watcher.go:78-101 | the effect and callback are those of `LocalTick` |
| LocalWatcher.LocalWatcher.WatchLocal | local_watcher.go:74-107 | the loop's callbacks and final state are those of `Run`; reaching a stop request clears `running` |
| LocalWatcher.NewLocalWatcher | local_watcher.go:31-49 | fails with the error `CheckLocalArgs` picks, otherwise returns a fresh, idle watcher with the clamped interval and options, the given path and the MD5 function passed in |

## Left out

- Concurrency is not modelled: the mutexes, the goroutine that `Start` launches, `time.After`, and the stop channel. The HTTP watcher never creates its stop channel, so there a `Stop` send would block forever. The loops are modelled as runs over a schedule of events, and `Stop` only as its `running` check.
- HttpProperties.TickKeepsDigestCoherent, HttpProperties.RunKeepsDigestCoherent: proved only for ticks whose local write does not fail after the open. A write or close that fails after `ioutil.WriteFile` has truncated the file leaves a damaged local file next to the old digest, and the lemmas do not cover that case. `FailedWriteIsRetried` shows that a later successful download of the same reply repairs the file. If the server instead goes back to the content the kept validators describe, every later download is "not modified" (`MatchingDigestIsNotModified`, `MatchingETagIsNotModified`) and the truncated file stays.
- HttpWatcher.HTTPWatcher.Stop, LocalWatcher.LocalWatcher.Stop: they state only the error check. The hand-off of a stop request to the loop is modelled by the `StopRequest` event.
- Real HTTP is not modelled: request construction, the `If-Modified-Since` header and its date formatting, the `http.Client`, and closing bodies. Each exchange is a `Transfer` value.
- `os.Chtimes`, file permissions (`perm` is stored but has no effect), and the modification times of files written by the HTTP watcher are not modelled. The local watcher's stat results are inputs.
- MD5, base64 decoding and HTTP-date parsing are uninterpreted functions. Only their equalities matter to the watchers. The GMT time-zone lookup is the `gmtLoaded` parameter.
- Paths.SidecarShape, Paths.SidecarIsNeighbour, Paths.JoinDir: proved for paths whose directory part is neither `.` nor a bare `/` (`PlainDir`). `Dir`, `Base` and `Join` do not clean their argument as Go's do, so they, and `SidecarPath`, agree with Go only on paths that `filepath.Clean` leaves unchanged (no empty, `.` or `..` element and no trailing `/`). For `a//b` the model's sidecar is `a//.b.etag`, where Go's is `a/.b.etag`.
- Error messages are values of `Error`, not formatted strings. Wrapped Go errors keep only the part the watchers decide on (the verb, status code, header or path).
- `watch.go` is not part of this model. It is a separate, simpler modification-time poller (`Watcher`, `NewWatcher`, `Start`, `Stop`) that does not compile as written.
- The Go `Option` type is a signed `int` whose width depends on the platform. The model uses 64 bits; the four flags and `& flag > 0` behave the same at any width.
- Common.ToBytes, Common.FromBytes: a Go string is a sequence of bytes. The model holds it as characters below 256, one per byte, and does not model UTF-8 encoding of wider characters.
