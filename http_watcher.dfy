/**
 * The HTTP watcher (http_watcher.go): polls a remote URL, decides from the
 * response and the stored validators whether the resource changed, and on a
 * change saves the body to a local file, updates the validators and writes
 * the entity tag to a sidecar file beside the local copy.
 *
 * The decision cascades of `checkHead` and of the check phase of `download`
 * are functions of the response, the stored validators and the current time.
 * The save phase, `EnsureLocal`, `Start`, `Stop`, one tick of `watchHTTP` and
 * the loop itself are methods of the class `HTTPWatcher`, each proved against
 * a function of the old state; the properties are proved about those functions.
 */
module HttpWatcher {
  import opened Wrappers
  import opened Common
  import opened Paths
  import opened Disk
  import Options

  /**
   * A response as the watcher reads it. Each header field holds what
   * `Header.Get` returns: "" when the header is absent. `body` is None when
   * reading the body fails.
   */
  datatype Response = Response(
    status: int,
    lastModified: string,   // Last-Modified, section 2.2 of RFC 7232
    etag: string,           // ETag, section 2.3 of RFC 7232
    contentMD5: string,     // Content-MD5 of RFC 1864, base64 text
    body: Option<Bytes>)

  /** The outcome of one request: it could not be built, it could not be sent, or a response came back. */
  datatype Transfer = BadRequest | SendFailed | Received(resp: Response)

  /** The stored validators: the `modTime`, `checksum` and `etag` fields. */
  datatype Validators = Validators(modTime: int, checksum: Digest, etag: string)

  /** The zero values the fields start with. */
  const NoValidators := Validators(0, ZeroDigest, "")

  /** What the decisions read from the watcher besides its validators. */
  datatype Config = Config(local: Path, options: Options.Option, platform: Platform)

  /** 200 OK and 204 No Content are the statuses whose headers and body are inspected. */
  predicate StatusOK(code: int) {
    code == 200 || code == 204
  }

  /*
   * Order-free reference predicates: each says that one validator, when it is
   * enabled and present in the response, reports a difference from what is stored.
   */

  /** With `CheckModTime`, a present Last-Modified parses to a time strictly after the stored one. */
  predicate LastModifiedNewer(cfg: Config, v: Validators, resp: Response) {
    var parsed := cfg.platform.parseHTTPDate(resp.lastModified);
    !Options.ModTimeOn(cfg.options) || resp.lastModified == "" || (parsed.Some? && parsed.value > v.modTime)
  }

  /** With `CheckETag`, a present entity tag differs from the stored one. */
  predicate ETagDiffers(cfg: Config, v: Validators, resp: Response) {
    !Options.ETagOn(cfg.options) || resp.etag == "" || resp.etag != v.etag
  }

  /** With `CheckMD5`, a present Content-MD5 decodes to something other than the stored digest. */
  predicate HeaderDigestDiffers(cfg: Config, v: Validators, resp: Response) {
    var decoded := cfg.platform.decodeBase64(resp.contentMD5);
    !Options.MD5On(cfg.options) || resp.contentMD5 == "" || (decoded.Some? && decoded.value != v.checksum)
  }

  /** With `CheckMD5`, the digest of the body differs from the stored digest. */
  predicate BodyDigestDiffers(cfg: Config, v: Validators, body: Bytes) {
    !Options.MD5On(cfg.options) || cfg.platform.md5(body) != v.checksum
  }

  /** With `CheckModTime`, a present Last-Modified that does not parse as an HTTP date. */
  predicate LastModifiedUnparsable(cfg: Config, resp: Response) {
    Options.ModTimeOn(cfg.options) && resp.lastModified != "" && cfg.platform.parseHTTPDate(resp.lastModified).None?
  }

  /** With `CheckMD5`, a present Content-MD5 that is not base64. */
  predicate ContentMD5Undecodable(cfg: Config, resp: Response) {
    Options.MD5On(cfg.options) && resp.contentMD5 != "" && cfg.platform.decodeBase64(resp.contentMD5).None?
  }

  /**
   * `checkHead`: the HEAD probe. None means "go on and download"; the
   * `NotModified` sentinel means the tick can stop; anything else is an error.
   * Checks status, then Last-Modified, then Content-MD5, then ETag.
   */
  function CheckHead(cfg: Config, v: Validators, t: Transfer): (r: Option<Error>)
    ensures t.BadRequest? ==> r == Some(CreateRequestFailed("HEAD"))
    ensures t.SendFailed? ==> r == Some(SendRequestFailed("HEAD"))
    ensures t.Received? && t.resp.status == 304 ==> r == Some(NotModified)
    ensures t.Received? && t.resp.status != 304 && !StatusOK(t.resp.status) ==> r == Some(BadStatus(t.resp.status))
    ensures t.Received? && StatusOK(t.resp.status) && Options.ModTimeOn(cfg.options) && t.resp.lastModified != ""
            && cfg.platform.parseHTTPDate(t.resp.lastModified).None? ==>
              r == Some(BadLastModified(t.resp.lastModified))
    ensures r.None? <==>
              t.Received? && StatusOK(t.resp.status) && LastModifiedNewer(cfg, v, t.resp)
              && HeaderDigestDiffers(cfg, v, t.resp) && ETagDiffers(cfg, v, t.resp)
    ensures r == Some(NotModified) ==>
              t.Received? && (t.resp.status == 304 || !LastModifiedNewer(cfg, v, t.resp)
                              || !HeaderDigestDiffers(cfg, v, t.resp) || !ETagDiffers(cfg, v, t.resp))
    ensures t.Received? && StatusOK(t.resp.status) && LastModifiedNewer(cfg, v, t.resp)
            && Options.MD5On(cfg.options) && t.resp.contentMD5 != ""
            && cfg.platform.decodeBase64(t.resp.contentMD5).None? ==>
              r == Some(BadContentMD5(t.resp.contentMD5))
    ensures t.Received? && StatusOK(t.resp.status) && LastModifiedNewer(cfg, v, t.resp)
            && !(Options.MD5On(cfg.options) && t.resp.contentMD5 != "" && cfg.platform.decodeBase64(t.resp.contentMD5).None?)
            && !ETagDiffers(cfg, v, t.resp) ==>
              r == Some(NotModified)
  {
    match t
    case BadRequest => Some(CreateRequestFailed("HEAD"))
    case SendFailed => Some(SendRequestFailed("HEAD"))
    case Received(resp) =>
      var parsed := cfg.platform.parseHTTPDate(resp.lastModified);
      var decoded := cfg.platform.decodeBase64(resp.contentMD5);
      if resp.status == 304 then Some(NotModified)
      else if !StatusOK(resp.status) then Some(BadStatus(resp.status))
      else if Options.ModTimeOn(cfg.options) && resp.lastModified != "" && parsed.None? then
        Some(BadLastModified(resp.lastModified))
      else if Options.ModTimeOn(cfg.options) && resp.lastModified != "" && !(parsed.value > v.modTime) then
        Some(NotModified)
      else if Options.MD5On(cfg.options) && resp.contentMD5 != "" && decoded.None? then
        Some(BadContentMD5(resp.contentMD5))
      else if Options.MD5On(cfg.options) && resp.contentMD5 != "" && decoded.value == v.checksum then
        Some(NotModified)
      else if Options.ETagOn(cfg.options) && resp.etag != "" && v.etag == resp.etag then
        Some(NotModified)
      else None
  }

  /** The verdict of the check phase of `download`: stop with an error, or save these values. */
  datatype Plan = Abort(err: Error) | Save(content: Bytes, checksum: Digest, modTime: int, etag: string)

  /**
   * The check phase of `download`: status, then Last-Modified (defaulting to
   * `now` when absent), then ETag, then reading the body, then its MD5.
   * Fields of the plan whose option is off keep Go's zero values and are never stored.
   */
  function DownloadCheck(cfg: Config, v: Validators, t: Transfer, now: int): (plan: Plan)
    ensures t.BadRequest? ==> plan == Abort(CreateRequestFailed("GET"))
    ensures t.SendFailed? ==> plan == Abort(SendRequestFailed("GET"))
    ensures t.Received? && t.resp.status == 304 ==> plan == Abort(NotModified)
    ensures t.Received? && t.resp.status != 304 && !StatusOK(t.resp.status) ==> plan == Abort(BadStatus(t.resp.status))
    ensures t.Received? && StatusOK(t.resp.status) && Options.ModTimeOn(cfg.options) && t.resp.lastModified != ""
            && cfg.platform.parseHTTPDate(t.resp.lastModified).None? ==>
              plan == Abort(BadLastModified(t.resp.lastModified))
    ensures plan.Save? <==>
              t.Received? && StatusOK(t.resp.status) && LastModifiedNewer(cfg, v, t.resp)
              && ETagDiffers(cfg, v, t.resp) && t.resp.body.Some?
              && BodyDigestDiffers(cfg, v, t.resp.body.value)
    ensures t.Received? && StatusOK(t.resp.status) && LastModifiedNewer(cfg, v, t.resp)
            && ETagDiffers(cfg, v, t.resp) && t.resp.body.None? ==>
              plan == Abort(ReadBodyFailed)
    ensures plan == Abort(NotModified) ==>
              t.Received? && (t.resp.status == 304 || !LastModifiedNewer(cfg, v, t.resp) || !ETagDiffers(cfg, v, t.resp)
                              || (t.resp.body.Some? && !BodyDigestDiffers(cfg, v, t.resp.body.value)))
    ensures plan.Save? ==> plan.content == t.resp.body.value
    ensures plan.Save? && Options.MD5On(cfg.options) ==> plan.checksum == cfg.platform.md5(plan.content)
    ensures plan.Save? && Options.ModTimeOn(cfg.options) ==>
              plan.modTime == if t.resp.lastModified == "" then now
                              else cfg.platform.parseHTTPDate(t.resp.lastModified).value
    ensures plan.Save? && Options.ETagOn(cfg.options) ==> plan.etag == t.resp.etag
  {
    match t
    case BadRequest => Abort(CreateRequestFailed("GET"))
    case SendFailed => Abort(SendRequestFailed("GET"))
    case Received(resp) =>
      var parsed := cfg.platform.parseHTTPDate(resp.lastModified);
      if resp.status == 304 then Abort(NotModified)
      else if !StatusOK(resp.status) then Abort(BadStatus(resp.status))
      else if Options.ModTimeOn(cfg.options) && resp.lastModified != "" && parsed.None? then
        Abort(BadLastModified(resp.lastModified))
      else if Options.ModTimeOn(cfg.options) && resp.lastModified != "" && !(parsed.value > v.modTime) then
        Abort(NotModified)
      else
        var modTime := if !Options.ModTimeOn(cfg.options) then 0
                       else if resp.lastModified == "" then now
                       else parsed.value;
        var etag := if Options.ETagOn(cfg.options) then resp.etag else "";
        if Options.ETagOn(cfg.options) && etag != "" && v.etag == etag then Abort(NotModified)
        else if resp.body.None? then Abort(ReadBodyFailed)
        else
          var checksum := if Options.MD5On(cfg.options) then cfg.platform.md5(resp.body.value) else ZeroDigest;
          if Options.MD5On(cfg.options) && checksum == v.checksum then Abort(NotModified)
          else Save(resp.body.value, checksum, modTime, etag)
  }

  /** The validators after a successful local write: each enabled one takes the plan's value. */
  function Updated(cfg: Config, v: Validators, plan: Plan): Validators
    requires plan.Save?
  {
    Validators(
      if Options.ModTimeOn(cfg.options) then plan.modTime else v.modTime,
      if Options.MD5On(cfg.options) then plan.checksum else v.checksum,
      if Options.ETagOn(cfg.options) then plan.etag else v.etag)
  }

  /** The state an operation leaves behind: its error, the validators and the files on disk. */
  datatype Step = Step(err: Option<Error>, v: Validators, files: map<Path, Bytes>)

  /** How the two writes of one save phase turn out: the local file's and the sidecar's. */
  datatype SaveFaults = SaveFaults(local: Option<WriteFault>, sidecar: Option<WriteFault>)

  /** Both writes succeed. */
  const NoFaults := SaveFaults(None, None)

  /**
   * The save phase of `download`: write the body to the local file; only if
   * that succeeds, update the enabled validators (checksum, modification time,
   * entity tag, in that order) and write the entity tag to the sidecar. A
   * failed sidecar write is reported after the validators have changed.
   */
  function Persist(cfg: Config, v: Validators, files: map<Path, Bytes>, f: SaveFaults, plan: Plan): (s: Step)
    requires plan.Save?
    ensures f.local.Some? ==>
              s.err == Some(WriteFailed(cfg.local)) && s.v == v
              && UnchangedOrPrefix(files, s.files, cfg.local, plan.content)
    ensures f.local == Some(OpenFailed) ==> s.files == files
    ensures f.local.None? ==>
              cfg.local in s.files && s.files[cfg.local] == plan.content
              && s.v.checksum == (if Options.MD5On(cfg.options) then plan.checksum else v.checksum)
              && s.v.modTime == (if Options.ModTimeOn(cfg.options) then plan.modTime else v.modTime)
              && s.v.etag == (if Options.ETagOn(cfg.options) then plan.etag else v.etag)
    ensures s.err.None? <==> f.local.None? && (Options.ETagOn(cfg.options) ==> f.sidecar.None?)
    ensures f.local.None? && !Options.ETagOn(cfg.options) ==> s.files == files[cfg.local := plan.content]
    ensures s.err.None? && Options.ETagOn(cfg.options) ==>
              s.files == files[cfg.local := plan.content][SidecarPath(cfg.local) := ToBytes(plan.etag)]
    ensures f.local.None? && Options.ETagOn(cfg.options) && f.sidecar.Some? ==>
              s.err == Some(SaveETagFailed(SidecarPath(cfg.local)))
              && UnchangedOrPrefix(files[cfg.local := plan.content], s.files, SidecarPath(cfg.local), ToBytes(plan.etag))
    ensures forall p :: p != cfg.local && p != SidecarPath(cfg.local) ==>
              (p in s.files <==> p in files) && (p in files ==> s.files[p] == files[p])
  {
    SidecarIsNotLocal(cfg.local);
    var local := cfg.local;
    if f.local.Some? then Step(Some(WriteFailed(local)), v, AfterWrite(files, local, plan.content, f.local))
    else
      var written := files[local := plan.content];
      var updated := Updated(cfg, v, plan);
      if !Options.ETagOn(cfg.options) then Step(None, updated, written)
      else
        var etagPath := SidecarPath(local);
        var saved := AfterWrite(written, etagPath, ToBytes(plan.etag), f.sidecar);
        if f.sidecar.Some? then Step(Some(SaveETagFailed(etagPath)), updated, saved)
        else Step(None, updated, saved)
  }

  /** `download` as a whole: the check phase, then, for a plan to save, the save phase. */
  function DownloadSpec(cfg: Config, v: Validators, files: map<Path, Bytes>, f: SaveFaults, t: Transfer, now: int): (s: Step)
    ensures s.err.Some? && !s.err.value.SaveETagFailed? && !s.err.value.WriteFailed? ==> s.v == v && s.files == files
    ensures s.err.Some? && s.err.value.WriteFailed? ==>
              s.err.value == WriteFailed(cfg.local) && f.local.Some? && s.v == v
              && t.Received? && t.resp.body.Some? && UnchangedOrPrefix(files, s.files, cfg.local, t.resp.body.value)
    ensures s.err.None? ==>
              t.Received? && t.resp.body.Some? && cfg.local in s.files && s.files[cfg.local] == t.resp.body.value
    ensures s.err.Some? && s.err.value.SaveETagFailed? ==>
              Options.ETagOn(cfg.options) && f.sidecar.Some? && t.Received? && t.resp.body.Some?
              && cfg.local in s.files && s.files[cfg.local] == t.resp.body.value && s.v.etag == t.resp.etag
    ensures (s.err.None? || s.err.value.SaveETagFailed?) && Options.MD5On(cfg.options) ==>
              t.Received? && t.resp.body.Some? && s.v.checksum == cfg.platform.md5(t.resp.body.value)
  {
    var plan := DownloadCheck(cfg, v, t, now);
    if plan.Abort? then Step(Some(plan.err), v, files)
    else Persist(cfg, v, files, f, plan)
  }

  /**
   * `EnsureLocal`: an existing local file is adopted as it is, taking the
   * entity tag from the sidecar when `CheckETag` is on and the sidecar reads;
   * a missing local file is downloaded.
   */
  function EnsureLocalSpec(cfg: Config, v: Validators, files: map<Path, Bytes>, readFails: bool, f: SaveFaults,
                           t: Transfer, now: int): (s: Step)
    ensures cfg.local in files ==>
              s.err.None? && s.files == files && s.v.modTime == v.modTime && s.v.checksum == v.checksum
    ensures cfg.local in files && Options.ETagOn(cfg.options)
            && SidecarPath(cfg.local) in files && !readFails ==>
              s.v.etag == FromBytes(files[SidecarPath(cfg.local)])
    ensures cfg.local in files && !(Options.ETagOn(cfg.options)
            && SidecarPath(cfg.local) in files && !readFails) ==>
              s.v == v
    ensures cfg.local !in files ==> s == DownloadSpec(cfg, v, files, f, t, now)
  {
    if cfg.local in files then
      var etagPath := SidecarPath(cfg.local);
      if Options.ETagOn(cfg.options) && etagPath in files && !readFails then
        Step(None, v.(etag := FromBytes(files[etagPath])), files)
      else Step(None, v, files)
    else DownloadSpec(cfg, v, files, f, t, now)
  }

  /**
   * `Start`: with no stored modification time it first runs `EnsureLocal`
   * and returns its error; only then does it look at `running`.
   */
  function StartSpec(cfg: Config, v: Validators, files: map<Path, Bytes>, readFails: bool, f: SaveFaults,
                     running: bool, t: Transfer, now: int): (s: Step)
    ensures v.modTime != 0 ==> s.v == v && s.files == files
    ensures v.modTime != 0 ==> (s.err == Some(Running) <==> running) && (s.err.None? <==> !running)
    ensures v.modTime == 0 ==>
              var e := EnsureLocalSpec(cfg, v, files, readFails, f, t, now);
              s.v == e.v && s.files == e.files
              && (e.err.Some? ==> s.err == e.err)
              && (e.err.None? ==> s.err == if running then Some(Running) else None)
  {
    if v.modTime == 0 then
      var e := EnsureLocalSpec(cfg, v, files, readFails, f, t, now);
      if e.err.Some? then e
      else Step(if running then Some(Running) else None, e.v, e.files)
    else Step(if running then Some(Running) else None, v, files)
  }

  /** What one tick of the polling loop leaves: validators, files and the callback it made. */
  datatype TickOutcome = TickOutcome(v: Validators, files: map<Path, Bytes>, cb: Callback)

  /**
   * One tick of `watchHTTP`: the optional HEAD probe, then `download`.
   * `NotModified` from either ends the tick without a callback; a probe error
   * goes to the callback and skips the download.
   */
  function TickSpec(cfg: Config, v: Validators, files: map<Path, Bytes>,
                    head: Transfer, get: Transfer, now: int, f: SaveFaults): (r: TickOutcome)
    ensures r.cb != Call(Some(NotModified))
    ensures r.cb == Call(None) ==>
              get.Received? && get.resp.body.Some? && cfg.local in r.files && r.files[cfg.local] == get.resp.body.value
    ensures Options.HeadOn(cfg.options) && CheckHead(cfg, v, head).Some? ==>
              r.v == v && r.files == files
              && r.cb == (if CheckHead(cfg, v, head) == Some(NotModified) then NoCall else Call(CheckHead(cfg, v, head)))
    ensures !(Options.HeadOn(cfg.options) && CheckHead(cfg, v, head).Some?) ==>
              var d := DownloadSpec(cfg, v, files, f, get, now);
              r.v == d.v && r.files == d.files
              && r.cb == (if d.err.None? then Call(None) else if d.err == Some(NotModified) then NoCall else Call(d.err))
  {
    var probe := if Options.HeadOn(cfg.options) then CheckHead(cfg, v, head) else None;
    if probe == Some(NotModified) then TickOutcome(v, files, NoCall)
    else if probe.Some? then TickOutcome(v, files, Call(probe))
    else
      var d := DownloadSpec(cfg, v, files, f, get, now);
      if d.err.None? then TickOutcome(d.v, d.files, Call(None))
      else if d.err == Some(NotModified) then TickOutcome(d.v, d.files, NoCall)
      else TickOutcome(d.v, d.files, Call(d.err))
  }

  /** What the loop is woken by: the interval timer, with this tick's I/O results, or a stop request. */
  datatype HttpEvent = Poll(head: Transfer, get: Transfer, now: int, faults: SaveFaults) | StopRequest

  /** What the loop leaves: validators, files, every callback argument in order, and whether it stopped. */
  datatype RunOutcome = RunOutcome(v: Validators, files: map<Path, Bytes>, calls: seq<Option<Error>>, stopped: bool)

  /** The loop of `watchHTTP` over a schedule of events, up to the first stop request. */
  function Run(cfg: Config, v: Validators, files: map<Path, Bytes>, events: seq<HttpEvent>): RunOutcome
    decreases |events|, 1
  {
    if events == [] then RunOutcome(v, files, [], false)
    else match events[0]
      case StopRequest => RunOutcome(v, files, [], true)
      case Poll(_, _, _, _) => RunTick(cfg, v, files, events[0], events[1..])
  }

  /** A timer tick `e` of the loop, then the rest of the schedule. */
  function RunTick(cfg: Config, v: Validators, files: map<Path, Bytes>, e: HttpEvent, later: seq<HttpEvent>): RunOutcome
    requires e.Poll?
    decreases |later| + 1, 0
  {
    var t := TickSpec(cfg, v, files, e.head, e.get, e.now, e.faults);
    var rest := Run(cfg, t.v, t.files, later);
    rest.(calls := CallsOf(t.cb) + rest.calls)
  }

  /** One timer tick of the loop: the tick, followed by the rest of the schedule. */
  lemma RunPoll(cfg: Config, v: Validators, files: map<Path, Bytes>, events: seq<HttpEvent>)
    requires events != [] && events[0].Poll?
    ensures var e := events[0];
            var t := TickSpec(cfg, v, files, e.head, e.get, e.now, e.faults);
            var rest := Run(cfg, t.v, t.files, events[1..]);
            Run(cfg, v, files, events) == rest.(calls := CallsOf(t.cb) + rest.calls)
  {
  }

  /** The tick at index `i` of the loop, seen after the callback arguments `calls` already made. */
  lemma RunPollAt(cfg: Config, v: Validators, files: map<Path, Bytes>, events: seq<HttpEvent>, i: nat,
                  calls: seq<Option<Error>>)
    requires i < |events| && events[i].Poll?
    ensures var e := events[i];
            var t := TickSpec(cfg, v, files, e.head, e.get, e.now, e.faults);
            var whole := Run(cfg, v, files, events[i..]);
            var rest := Run(cfg, t.v, t.files, events[i + 1..]);
            whole.(calls := calls + whole.calls) == rest.(calls := (calls + CallsOf(t.cb)) + rest.calls)
  {
    var e := events[i];
    var t := TickSpec(cfg, v, files, e.head, e.get, e.now, e.faults);
    assert events[i..][0] == e && events[i..][1..] == events[i + 1..];
    RunPoll(cfg, v, files, events[i..]);
    ConcatAssoc(calls, CallsOf(t.cb), Run(cfg, t.v, t.files, events[i + 1..]).calls);
  }

  /** The loop ends at the end of the schedule, or at a stop request, without further change. */
  lemma RunEnd(cfg: Config, v: Validators, files: map<Path, Bytes>, events: seq<HttpEvent>)
    requires events == [] || events[0].StopRequest?
    ensures Run(cfg, v, files, events) == RunOutcome(v, files, [], events != [])
  {
  }

  /** `NewHTTPWatcher`'s argument checks: the clamped interval, or the first error. */
  function CheckHTTPArgs(remote: string, local: Path, interval: int, hasCallback: bool,
                         options: Options.Option, gmtLoaded: bool): (r: Result<int, Error>)
    ensures Options.ModTimeOn(options) && !gmtLoaded ==> r == Failure(NoGMT)
    ensures (!Options.ModTimeOn(options) || gmtLoaded) && (remote == "" || local == "") ==> r == Failure(NoRemoteOrLocal)
    ensures (!Options.ModTimeOn(options) || gmtLoaded) && remote != "" && local != "" && !hasCallback ==>
              r == Failure(NoCallback)
    ensures r.Success? <==> (!Options.ModTimeOn(options) || gmtLoaded) && remote != "" && local != "" && hasCallback
    ensures r.Success? ==> r.value >= Minute && (interval >= Minute ==> r.value == interval)
  {
    if Options.ModTimeOn(options) && !gmtLoaded then Failure(NoGMT)
    else if remote == "" || local == "" then Failure(NoRemoteOrLocal)
    else if !hasCallback then Failure(NoCallback)
    else if interval < Minute then Success(Minute)
    else Success(interval)
  }

  class HTTPWatcher {
    const remote: string
    const local: Path
    const perm: int
    const interval: int
    const options: Options.Option
    const platform: Platform
    var running: bool
    var modTime: int
    var checksum: Digest
    var etag: string

    function Cfg(): Config {
      Config(local, options, platform)
    }

    function Observed(): Validators
      reads this
    {
      Validators(modTime, checksum, etag)
    }

    /** The watcher `NewHTTPWatcher` allocates: not running, every validator at its zero value. */
    constructor (remote: string, local: Path, interval: int, perm: int, options: Options.Option, platform: Platform)
      ensures this.remote == remote && this.local == local && this.interval == interval && this.perm == perm
      ensures this.options == options && this.platform == platform
      ensures !running && Observed() == NoValidators
    {
      this.remote := remote;
      this.local := local;
      this.interval := interval;
      this.perm := perm;
      this.options := options;
      this.platform := platform;
      running := false;
      modTime := 0;
      checksum := ZeroDigest;
      etag := "";
    }

    /** `download`: the check phase, then the save phase. */
    method Download(get: Transfer, now: int, f: SaveFaults, fs: FileSystem) returns (err: Option<Error>)
      modifies this, fs
      ensures running == old(running)
      ensures var s := DownloadSpec(Cfg(), old(Observed()), old(fs.files), f, get, now);
              err == s.err && Observed() == s.v && fs.files == s.files
    {
      var plan := DownloadCheck(Cfg(), Observed(), get, now);
      if plan.Abort? {
        return Some(plan.err);
      }
      err := Save(plan, f, fs);
    }

    /** The save phase of `download`: the local write, the validators, then the sidecar. */
    method Save(plan: Plan, f: SaveFaults, fs: FileSystem) returns (err: Option<Error>)
      requires plan.Save?
      modifies this, fs
      ensures running == old(running)
      ensures var s := Persist(Cfg(), old(Observed()), old(fs.files), f, plan);
              err == s.err && Observed() == s.v && fs.files == s.files
    {
      err := fs.WriteFile(local, plan.content, f.local);
      if err.Some? {
        return;
      }
      UpdateValidators(plan);
      if Options.ETagOn(options) {
        var etagPath := SidecarPath(local);
        var e := fs.WriteFile(etagPath, ToBytes(etag), f.sidecar);
        if e.Some? {
          return Some(SaveETagFailed(etagPath));
        }
      }
      err := None;
    }

    /** The validator updates of the save phase, in the order `download` makes them. */
    method UpdateValidators(plan: Plan)
      requires plan.Save?
      modifies this
      ensures running == old(running)
      ensures Observed() == Updated(Cfg(), old(Observed()), plan)
    {
      if Options.MD5On(options) {
        checksum := plan.checksum;
      }
      if Options.ModTimeOn(options) {
        modTime := plan.modTime;  // the file's own times (os.Chtimes) are not modelled
      }
      if Options.ETagOn(options) {
        etag := plan.etag;
      }
    }

    /** `EnsureLocal`; `readFails` says whether reading the sidecar fails. */
    method EnsureLocal(get: Transfer, now: int, readFails: bool, f: SaveFaults, fs: FileSystem) returns (err: Option<Error>)
      modifies this, fs
      ensures running == old(running)
      ensures var s := EnsureLocalSpec(Cfg(), old(Observed()), old(fs.files), readFails, f, get, now);
              err == s.err && Observed() == s.v && fs.files == s.files
    {
      var present := fs.Stat(local);
      if present {
        if Options.ETagOn(options) {
          var content := fs.ReadFile(SidecarPath(local), readFails);
          if content.Some? {
            etag := FromBytes(content.value);
          }
        }
        return None;
      }
      err := Download(get, now, f, fs);
    }

    /**
     * `Start`. As written it never sets `running`, so the watcher it starts
     * still counts as stopped.
     */
    method Start(get: Transfer, now: int, readFails: bool, f: SaveFaults, fs: FileSystem) returns (err: Option<Error>)
      modifies this, fs
      ensures running == old(running)
      ensures var s := StartSpec(Cfg(), old(Observed()), old(fs.files), readFails, f, old(running), get, now);
              err == s.err && Observed() == s.v && fs.files == s.files
    {
      if modTime == 0 {
        err := EnsureLocal(get, now, readFails, f, fs);
        if err.Some? {
          return;
        }
      }
      if running {
        return Some(Running);
      }
      // `go w.watchHTTP()` launches the loop modelled by WatchHTTP.
      err := None;
    }

    /** `Stop`: refuses a watcher that is not running; the hand-off to the loop is not modelled. */
    method Stop() returns (err: Option<Error>)
      ensures err.Some? <==> !running
      ensures err.Some? ==> err.value == Stopped
    {
      if !running {
        return Some(Stopped);
      }
      err := None;
    }

    /** One tick of `watchHTTP`, returning what it does with the callback. */
    method Tick(head: Transfer, get: Transfer, now: int, f: SaveFaults, fs: FileSystem) returns (cb: Callback)
      modifies this, fs
      ensures running == old(running)
      ensures var t := TickSpec(Cfg(), old(Observed()), old(fs.files), head, get, now, f);
              cb == t.cb && Observed() == t.v && fs.files == t.files
    {
      if Options.HeadOn(options) {
        var err := CheckHead(Cfg(), Observed(), head);
        if err == Some(NotModified) {
          return NoCall;
        } else if err.Some? {
          return Call(err);
        }
      }
      var err := Download(get, now, f, fs);
      if err.None? {
        cb := Call(None);
      } else if err != Some(NotModified) {
        cb := Call(err);
      } else {
        cb := NoCall;
      }
    }

    /**
     * `watchHTTP`: ticks until a stop request arrives, then clears `running`
     * (the deferred assignment). Returns the callback arguments in order.
     */
    method WatchHTTP(events: seq<HttpEvent>, fs: FileSystem) returns (calls: seq<Option<Error>>)
      modifies this, fs
      ensures var r := Run(Cfg(), old(Observed()), old(fs.files), events);
              calls == r.calls && Observed() == r.v && fs.files == r.files
              && (r.stopped ==> !running) && (!r.stopped ==> running == old(running))
    {
      ghost var cfg := Cfg();
      ghost var whole := Run(cfg, Observed(), fs.files, events);
      calls := [];
      var i := 0;
      while i < |events| && !events[i].StopRequest?
        invariant 0 <= i <= |events|
        invariant running == old(running)
        invariant var rest := Run(cfg, Observed(), fs.files, events[i..]);
                  whole == rest.(calls := calls + rest.calls)
      {
        var ev := events[i];
        RunPollAt(cfg, Observed(), fs.files, events, i, calls);
        var cb := Tick(ev.head, ev.get, ev.now, ev.faults, fs);
        calls := calls + CallsOf(cb);
        i := i + 1;
      }
      RunEnd(cfg, Observed(), fs.files, events[i..]);
      if i < |events| {
        running := false;
      }
    }
  }

  /** `NewHTTPWatcher`: the argument checks, then a fresh watcher with the clamped interval. */
  method NewHTTPWatcher(remote: string, local: Path, interval: int, perm: int, hasCallback: bool,
                        options: Options.Option, gmtLoaded: bool, platform: Platform)
    returns (w: HTTPWatcher?, err: Option<Error>)
    ensures var r := CheckHTTPArgs(remote, local, interval, hasCallback, options, gmtLoaded);
            (r.Failure? ==> w == null && err == Some(r.error))
            && (r.Success? ==> err.None? && w != null && fresh(w) && w.interval == r.value
                               && w.remote == remote && w.local == local && w.perm == perm
                               && w.options == options && w.platform == platform
                               && !w.running && w.Observed() == NoValidators)
  {
    var r := CheckHTTPArgs(remote, local, interval, hasCallback, options, gmtLoaded);
    if r.Failure? {
      return null, Some(r.error);
    }
    w := new HTTPWatcher(remote, local, r.value, perm, options, platform);
    err := None;
  }
}
