/**
 * Properties of the HTTP watcher that relate several calls or hold over a
 * whole run of the polling loop.
 */
module HttpProperties {
  import opened Wrappers
  import opened Common
  import opened Paths
  import opened Disk
  import opened HttpWatcher
  import Options

  /** A 304 reply ends both the probe and the download with the sentinel and changes nothing. */
  lemma NotModifiedStatusChangesNothing(cfg: Config, v: Validators, files: map<Path, Bytes>, f: SaveFaults,
                                        t: Transfer, now: int)
    requires t.Received? && t.resp.status == 304
    ensures CheckHead(cfg, v, t) == Some(NotModified)
    ensures DownloadSpec(cfg, v, files, f, t, now) == Step(Some(NotModified), v, files)
    ensures TickSpec(cfg, v, files, t, t, now, f) == TickOutcome(v, files, NoCall)
  {
  }

  /**
   * With `CheckModTime`, a Last-Modified that parses to a time not after the
   * stored one is "not modified" even on status 200, and one that does not
   * parse is an error; neither changes anything.
   */
  lemma StaleLastModifiedIsNotModified(cfg: Config, v: Validators, files: map<Path, Bytes>, f: SaveFaults,
                                       t: Transfer, now: int)
    requires Options.ModTimeOn(cfg.options)
    requires t.Received? && StatusOK(t.resp.status) && t.resp.lastModified != ""
    ensures var parsed := cfg.platform.parseHTTPDate(t.resp.lastModified);
            var expected := if parsed.None? then Some(BadLastModified(t.resp.lastModified))
                            else if parsed.value <= v.modTime then Some(NotModified)
                            else None;
            expected.Some? ==>
              CheckHead(cfg, v, t) == expected
              && DownloadSpec(cfg, v, files, f, t, now) == Step(expected, v, files)
  {
  }

  /**
   * With `CheckETag`, a reply carrying the stored entity tag changes nothing.
   * The download is "not modified" unless a Last-Modified header that does
   * not parse ends it first; the HEAD probe is "not modified" unless that
   * header, or a Content-MD5 header that is not base64, ends it first.
   */
  lemma MatchingETagIsNotModified(cfg: Config, v: Validators, files: map<Path, Bytes>, f: SaveFaults,
                                  t: Transfer, now: int)
    requires Options.ETagOn(cfg.options)
    requires t.Received? && StatusOK(t.resp.status) && t.resp.etag != "" && t.resp.etag == v.etag
    ensures DownloadSpec(cfg, v, files, f, t, now) ==
              Step(if LastModifiedUnparsable(cfg, t.resp) then Some(BadLastModified(t.resp.lastModified))
                   else Some(NotModified), v, files)
    ensures CheckHead(cfg, v, t) ==
              if LastModifiedUnparsable(cfg, t.resp) then Some(BadLastModified(t.resp.lastModified))
              else if LastModifiedNewer(cfg, v, t.resp) && ContentMD5Undecodable(cfg, t.resp) then
                Some(BadContentMD5(t.resp.contentMD5))
              else Some(NotModified)
  {
  }

  /**
   * With `CheckMD5`, a body whose digest is the stored one, or a Content-MD5
   * header that decodes to it, changes nothing: the outcome is "not modified"
   * unless a Last-Modified header that does not parse ends the check first.
   */
  lemma MatchingDigestIsNotModified(cfg: Config, v: Validators, files: map<Path, Bytes>, f: SaveFaults,
                                    t: Transfer, now: int)
    requires Options.MD5On(cfg.options)
    requires t.Received? && StatusOK(t.resp.status)
    ensures t.resp.body.Some? && cfg.platform.md5(t.resp.body.value) == v.checksum ==>
              DownloadSpec(cfg, v, files, f, t, now) ==
                Step(if LastModifiedUnparsable(cfg, t.resp) then Some(BadLastModified(t.resp.lastModified))
                     else Some(NotModified), v, files)
    ensures t.resp.contentMD5 != "" && cfg.platform.decodeBase64(t.resp.contentMD5) == Some(v.checksum) ==>
              CheckHead(cfg, v, t) ==
                if LastModifiedUnparsable(cfg, t.resp) then Some(BadLastModified(t.resp.lastModified))
                else Some(NotModified)
  {
  }

  /**
   * With `CheckModTime` and no Last-Modified header, a saved download stores
   * the current time, whatever was stored before, so the stored time can move
   * backwards when the clock is behind it.
   */
  lemma MissingLastModifiedTakesNow(cfg: Config, v: Validators, files: map<Path, Bytes>, f: SaveFaults,
                                    t: Transfer, now: int)
    requires Options.ModTimeOn(cfg.options)
    requires t.Received? && StatusOK(t.resp.status) && t.resp.lastModified == "" && t.resp.body.Some?
    requires ETagDiffers(cfg, v, t.resp) && BodyDigestDiffers(cfg, v, t.resp.body.value)
    requires f.local.None?
    ensures DownloadSpec(cfg, v, files, f, t, now).v.modTime == now
  {
  }

  /**
   * Downloading the same reply again right after a successful download is
   * "not modified" and changes nothing, as long as some enabled validator can
   * recognise the reply: a digest, a Last-Modified header or an entity tag.
   */
  lemma DownloadIdempotent(cfg: Config, v: Validators, files: map<Path, Bytes>, f: SaveFaults,
                           t: Transfer, now: int, later: int, f': SaveFaults)
    requires t.Received?
    requires DownloadSpec(cfg, v, files, f, t, now).err.None?
    requires Options.MD5On(cfg.options)
             || (Options.ModTimeOn(cfg.options) && t.resp.lastModified != "")
             || (Options.ETagOn(cfg.options) && t.resp.etag != "")
    ensures var s := DownloadSpec(cfg, v, files, f, t, now);
            DownloadSpec(cfg, s.v, s.files, f', t, later) == Step(Some(NotModified), s.v, s.files)
  {
    var plan := DownloadCheck(cfg, v, t, now);
    var s := DownloadSpec(cfg, v, files, f, t, now);
    assert s == Persist(cfg, v, files, f, plan);
  }

  /**
   * When the server's Content-MD5 is the digest of the body it would send (or
   * `CheckMD5` is off), the HEAD probe and the download reach the same verdict
   * on the same reply: both go on, both say "not modified", or both fail with
   * the same error, except that only the download reads the body.
   */
  lemma HeadAgreesWithGet(cfg: Config, v: Validators, t: Transfer, now: int)
    requires t.Received? && t.resp.body.Some?
    requires Options.MD5On(cfg.options) ==>
               t.resp.contentMD5 != "" && cfg.platform.decodeBase64(t.resp.contentMD5) == Some(cfg.platform.md5(t.resp.body.value))
    ensures CheckHead(cfg, v, t).None? <==> DownloadCheck(cfg, v, t, now).Save?
    ensures CheckHead(cfg, v, t).Some? ==> DownloadCheck(cfg, v, t, now) == Abort(CheckHead(cfg, v, t).value)
  {
  }

  /**
   * The sidecar carries the entity tag across a restart: after a successful
   * download with `CheckETag`, a new watcher's `EnsureLocal` on the same disk
   * adopts exactly the tag of the reply.
   */
  lemma SidecarRoundTrip(cfg: Config, v: Validators, files: map<Path, Bytes>, f: SaveFaults,
                         t: Transfer, now: int, restarted: Validators, f': SaveFaults, t': Transfer, now': int)
    requires Options.ETagOn(cfg.options)
    requires t.Received? && IsByteString(t.resp.etag)
    requires DownloadSpec(cfg, v, files, f, t, now).err.None?
    ensures var s := DownloadSpec(cfg, v, files, f, t, now);
            var e := EnsureLocalSpec(cfg, restarted, s.files, false, f', t', now');
            e.err.None? && e.files == s.files && e.v.etag == t.resp.etag
  {
    var plan := DownloadCheck(cfg, v, t, now);
    var s := DownloadSpec(cfg, v, files, f, t, now);
    assert s == Persist(cfg, v, files, f, plan);
    StringRoundTrip(t.resp.etag);
  }

  /**
   * A download that every enabled validator lets through, with both files
   * writable, saves the body, the sidecar and all three validators.
   */
  lemma SaveWithAllValidators(cfg: Config, v: Validators, files: map<Path, Bytes>, f: SaveFaults,
                              t: Transfer, now: int)
    requires Options.ModTimeOn(cfg.options) && Options.MD5On(cfg.options) && Options.ETagOn(cfg.options)
    requires t.Received? && StatusOK(t.resp.status) && t.resp.lastModified != "" && t.resp.body.Some?
    requires LastModifiedNewer(cfg, v, t.resp) && ETagDiffers(cfg, v, t.resp)
    requires BodyDigestDiffers(cfg, v, t.resp.body.value)
    requires f == NoFaults
    ensures var s := DownloadSpec(cfg, v, files, f, t, now);
            s.err.None?
            && s.files == files[cfg.local := t.resp.body.value][SidecarPath(cfg.local) := ToBytes(t.resp.etag)]
            && s.v == Validators(cfg.platform.parseHTTPDate(t.resp.lastModified).value,
                                 cfg.platform.md5(t.resp.body.value), t.resp.etag)
  {
    var plan := DownloadCheck(cfg, v, t, now);
    assert DownloadSpec(cfg, v, files, f, t, now) == Persist(cfg, v, files, f, plan);
  }

  /**
   * The package's full-success test: all three validators on, the stored tag
   * empty, a reply with a newer Last-Modified, a new body and the tag "FOOBAR".
   */
  lemma FullSuccessExample(p: Platform, v: Validators, lastModified: string, body: Bytes, files: map<Path, Bytes>, now: int)
    requires v.etag == "" && lastModified != ""
    requires p.parseHTTPDate(lastModified).Some? && p.parseHTTPDate(lastModified).value > v.modTime
    requires p.md5(body) != v.checksum
    ensures var cfg := Config("example.txt", Options.CheckModTime | Options.CheckETag | Options.CheckMD5, p);
            var t := Received(Response(200, lastModified, "FOOBAR", "", Some(body)));
            var s := DownloadSpec(cfg, v, files, NoFaults, t, now);
            s.err.None?
            && "example.txt" in s.files && s.files["example.txt"] == body
            && ".example.txt.etag" in s.files && s.files[".example.txt.etag"] == ToBytes("FOOBAR")
            && s.v == Validators(p.parseHTTPDate(lastModified).value, p.md5(body), "FOOBAR")
  {
    var options := Options.CheckModTime | Options.CheckETag | Options.CheckMD5;
    assert Options.ModTimeOn(options) && Options.ETagOn(options) && Options.MD5On(options);
    var cfg := Config("example.txt", options, p);
    var t := Received(Response(200, lastModified, "FOOBAR", "", Some(body)));
    SidecarOfExample();
    SaveWithAllValidators(cfg, v, files, NoFaults, t, now);
    assert DownloadSpec(cfg, v, files, NoFaults, t, now).files["example.txt"] == body;
  }

  /**
   * A download whose local write fails leaves the validators as they were,
   * so a later tick that receives the same reply saves it again, and a local
   * file left truncated by the failed write is repaired once a write succeeds.
   */
  lemma FailedWriteIsRetried(cfg: Config, v: Validators, files: map<Path, Bytes>, f: SaveFaults,
                             t: Transfer, now: int, f': SaveFaults, later: int)
    requires DownloadSpec(cfg, v, files, f, t, now).err == Some(WriteFailed(cfg.local))
    requires f'.local.None?
    ensures var s := DownloadSpec(cfg, v, files, f, t, now);
            var s' := DownloadSpec(cfg, s.v, s.files, f', t, later);
            s.v == v && t.Received? && t.resp.body.Some?
            && (s'.err.None? || s'.err == Some(SaveETagFailed(SidecarPath(cfg.local))))
            && cfg.local in s'.files && s'.files[cfg.local] == t.resp.body.value
  {
    var s := DownloadSpec(cfg, v, files, f, t, now);
    assert DownloadCheck(cfg, v, t, now).Save?;
    var plan := DownloadCheck(cfg, v, t, later);
    assert plan.Save?;
    assert DownloadSpec(cfg, s.v, s.files, f', t, later) == Persist(cfg, v, s.files, f', plan);
  }

  /** The `NotModified` sentinel never reaches the callback, over any run of the loop. */
  lemma {:induction false} RunNeverReportsNotModified(cfg: Config, v: Validators, files: map<Path, Bytes>,
                                                      events: seq<HttpEvent>)
    ensures Some(NotModified) !in Run(cfg, v, files, events).calls
    decreases |events|
  {
    if events != [] && events[0].Poll? {
      var e := events[0];
      var t := TickSpec(cfg, v, files, e.head, e.get, e.now, e.faults);
      RunNeverReportsNotModified(cfg, t.v, t.files, events[1..]);
    }
  }

  /** With `CheckMD5`, the stored digest is the digest of the local file. */
  predicate DigestCoherent(cfg: Config, v: Validators, files: map<Path, Bytes>) {
    cfg.local in files && v.checksum == cfg.platform.md5(files[cfg.local])
  }

  /** With `CheckETag`, the sidecar holds the stored entity tag. */
  predicate TagCoherent(cfg: Config, v: Validators, files: map<Path, Bytes>) {
    SidecarPath(cfg.local) in files && files[SidecarPath(cfg.local)] == ToBytes(v.etag)
  }

  /** The local write either succeeds or fails before the file is opened, so it never leaves a truncated file. */
  predicate LocalWriteNotTorn(f: SaveFaults) {
    f.local.None? || f.local == Some(OpenFailed)
  }

  /**
   * One tick keeps the stored digest equal to the digest of the local file,
   * unless its local write is torn: then the file may be truncated while the
   * old digest is kept.
   */
  lemma TickKeepsDigestCoherent(cfg: Config, v: Validators, files: map<Path, Bytes>,
                                head: Transfer, get: Transfer, now: int, f: SaveFaults)
    requires Options.MD5On(cfg.options) && DigestCoherent(cfg, v, files) && LocalWriteNotTorn(f)
    ensures var r := TickSpec(cfg, v, files, head, get, now, f);
            DigestCoherent(cfg, r.v, r.files)
  {
  }

  /** Every run of the loop without a torn local write keeps the stored digest equal to the digest of the local file. */
  lemma {:induction false} RunKeepsDigestCoherent(cfg: Config, v: Validators, files: map<Path, Bytes>,
                                                  events: seq<HttpEvent>)
    requires Options.MD5On(cfg.options) && DigestCoherent(cfg, v, files)
    requires forall i :: 0 <= i < |events| && events[i].Poll? ==> LocalWriteNotTorn(events[i].faults)
    ensures var r := Run(cfg, v, files, events);
            DigestCoherent(cfg, r.v, r.files)
    decreases |events|
  {
    if events != [] && events[0].Poll? {
      var e := events[0];
      var t := TickSpec(cfg, v, files, e.head, e.get, e.now, e.faults);
      TickKeepsDigestCoherent(cfg, v, files, e.head, e.get, e.now, e.faults);
      assert forall i :: 0 <= i < |events[1..]| ==> events[1..][i] == events[i + 1];
      RunKeepsDigestCoherent(cfg, t.v, t.files, events[1..]);
    }
  }

  /** A tick whose sidecar write, if any, succeeds keeps the sidecar equal to the stored entity tag. */
  lemma TickKeepsTagCoherent(cfg: Config, v: Validators, files: map<Path, Bytes>,
                             head: Transfer, get: Transfer, now: int, f: SaveFaults)
    requires Options.ETagOn(cfg.options) && f.sidecar.None? && TagCoherent(cfg, v, files)
    ensures var r := TickSpec(cfg, v, files, head, get, now, f);
            TagCoherent(cfg, r.v, r.files)
  {
    var plan := DownloadCheck(cfg, v, get, now);
    if plan.Save? {
      assert DownloadSpec(cfg, v, files, f, get, now) == Persist(cfg, v, files, f, plan);
    }
  }

  /** A run whose sidecar writes all succeed keeps the sidecar equal to the stored entity tag. */
  lemma {:induction false} RunKeepsTagCoherent(cfg: Config, v: Validators, files: map<Path, Bytes>,
                                               events: seq<HttpEvent>)
    requires Options.ETagOn(cfg.options) && TagCoherent(cfg, v, files)
    requires forall i :: 0 <= i < |events| && events[i].Poll? ==> events[i].faults.sidecar.None?
    ensures var r := Run(cfg, v, files, events);
            TagCoherent(cfg, r.v, r.files)
    decreases |events|
  {
    if events != [] && events[0].Poll? {
      var e := events[0];
      var t := TickSpec(cfg, v, files, e.head, e.get, e.now, e.faults);
      TickKeepsTagCoherent(cfg, v, files, e.head, e.get, e.now, e.faults);
      assert forall i :: 0 <= i < |events[1..]| ==> events[1..][i] == events[i + 1];
      RunKeepsTagCoherent(cfg, t.v, t.files, events[1..]);
    }
  }
}
