/**
 * The local-file watcher (local_watcher.go): polls a path, compares its
 * modification time and, with `CheckMD5`, the digest of its content with the
 * last accepted values, and calls back on a change or on a failed stat or read.
 *
 * Each tick is driven by the result of `os.Stat` (an error or a modification
 * time) and, when the digest is wanted, the result of reading the file.
 */
module LocalWatcher {
  import opened Wrappers
  import opened Common
  import Options

  /** The result of `os.Stat`: a failure, or the file's modification time. */
  datatype StatResult = StatError | Stat(modTime: int)

  /** The stored observations: the `modTime` and `checksum` fields. */
  datatype LocalState = LocalState(modTime: int, checksum: Digest)

  /** What a tick reads from the watcher besides its observations. */
  datatype Config = Config(path: Path, options: Options.Option, md5: Bytes -> Digest)

  /** The interval and options `NewLocalWatcher` stores. */
  datatype Settings = Settings(interval: int, options: Options.Option)

  /**
   * `NewLocalWatcher`'s argument checks: an empty path first, then a missing
   * callback; the interval is raised to one second and `CheckModTime` is
   * always added to the options.
   */
  function CheckLocalArgs(path: Path, interval: int, hasCallback: bool, options: Options.Option): (r: Result<Settings, Error>)
    ensures path == "" ==> r == Failure(NoPath)
    ensures path != "" && !hasCallback ==> r == Failure(NoCallback)
    ensures r.Success? <==> path != "" && hasCallback
    ensures r.Success? ==> r.value.interval >= Second && (interval >= Second ==> r.value.interval == interval)
    ensures r.Success? ==>
              Options.ModTimeOn(r.value.options)
              && Options.MD5On(r.value.options) == Options.MD5On(options)
              && Options.ETagOn(r.value.options) == Options.ETagOn(options)
              && Options.HeadOn(r.value.options) == Options.HeadOn(options)
  {
    if path == "" then Failure(NoPath)
    else if !hasCallback then Failure(NoCallback)
    else
      Options.AddModTime(options);
      Success(Settings(if interval < Second then Second else interval, options | Options.CheckModTime))
  }

  /** What one tick leaves: the observations and what it did with the callback. */
  datatype TickOutcome = TickOutcome(state: LocalState, cb: Callback)

  /**
   * One tick of `watchLocal`. A failed stat is reported; a modification time
   * not after the stored one is ignored; with `CheckMD5` a failed read is
   * reported and an unchanged digest ignored; otherwise the change is accepted.
   */
  function LocalTick(cfg: Config, s: LocalState, stat: StatResult, read: Option<Bytes>): (r: TickOutcome)
    ensures stat.StatError? ==> r == TickOutcome(s, Call(Some(StatFailed(cfg.path))))
    ensures stat.Stat? && stat.modTime <= s.modTime ==> r == TickOutcome(s, NoCall)
    ensures Options.MD5On(cfg.options) && stat.Stat? && stat.modTime > s.modTime && read.None? ==>
              r == TickOutcome(s, Call(Some(ReadFailed(cfg.path))))
    ensures Options.MD5On(cfg.options) && stat.Stat? && stat.modTime > s.modTime && read.Some?
            && cfg.md5(read.value) == s.checksum ==>
              r == TickOutcome(s, NoCall)
    ensures r.cb == Call(None) <==>
              stat.Stat? && stat.modTime > s.modTime
              && (Options.MD5On(cfg.options) ==> read.Some? && cfg.md5(read.value) != s.checksum)
    ensures r.cb == Call(None) ==>
              stat.Stat? && r.state.modTime == stat.modTime && r.state.modTime > s.modTime
              && (Options.MD5On(cfg.options) ==> read.Some? && r.state.checksum == cfg.md5(read.value))
              && (!Options.MD5On(cfg.options) ==> r.state.checksum == ZeroDigest)
    ensures r.cb != Call(None) ==> r.state == s
  {
    match stat
    case StatError => TickOutcome(s, Call(Some(StatFailed(cfg.path))))
    case Stat(t) =>
      if !(t > s.modTime) then TickOutcome(s, NoCall)
      else if Options.MD5On(cfg.options) then
        if read.None? then TickOutcome(s, Call(Some(ReadFailed(cfg.path))))
        else
          var checksum := cfg.md5(read.value);
          if checksum == s.checksum then TickOutcome(s, NoCall)
          else TickOutcome(LocalState(t, checksum), Call(None))
      else TickOutcome(LocalState(t, ZeroDigest), Call(None))
  }

  /** What wakes the loop: the interval timer, with this tick's stat and read results, or a stop request. */
  datatype LocalEvent = Poll(stat: StatResult, read: Option<Bytes>) | StopRequest

  /** What the loop leaves: observations, every callback argument in order, and whether it stopped. */
  datatype RunOutcome = RunOutcome(state: LocalState, calls: seq<Option<Error>>, stopped: bool)

  /** The loop of `watchLocal` over a schedule of events, up to the first stop request. */
  function Run(cfg: Config, s: LocalState, events: seq<LocalEvent>): RunOutcome
    decreases |events|
  {
    if events == [] then RunOutcome(s, [], false)
    else match events[0]
      case StopRequest => RunOutcome(s, [], true)
      case Poll(stat, read) =>
        var t := LocalTick(cfg, s, stat, read);
        var rest := Run(cfg, t.state, events[1..]);
        rest.(calls := CallsOf(t.cb) + rest.calls)
  }

  /** One timer tick of the loop: the tick, followed by the rest of the schedule. */
  lemma RunPoll(cfg: Config, s: LocalState, events: seq<LocalEvent>)
    requires events != [] && events[0].Poll?
    ensures var t := LocalTick(cfg, s, events[0].stat, events[0].read);
            var rest := Run(cfg, t.state, events[1..]);
            Run(cfg, s, events) == rest.(calls := CallsOf(t.cb) + rest.calls)
  {
  }

  /** One timer tick of the loop, seen after the callback arguments `calls` already made. */
  lemma RunPollAfter(cfg: Config, s: LocalState, events: seq<LocalEvent>, calls: seq<Option<Error>>)
    requires events != [] && events[0].Poll?
    ensures var t := LocalTick(cfg, s, events[0].stat, events[0].read);
            var whole := Run(cfg, s, events);
            var rest := Run(cfg, t.state, events[1..]);
            whole.(calls := calls + whole.calls) == rest.(calls := (calls + CallsOf(t.cb)) + rest.calls)
  {
    var t := LocalTick(cfg, s, events[0].stat, events[0].read);
    RunPoll(cfg, s, events);
    ConcatAssoc(calls, CallsOf(t.cb), Run(cfg, t.state, events[1..]).calls);
  }

  /** The loop ends at the end of the schedule, or at a stop request, without further change. */
  lemma RunEnd(cfg: Config, s: LocalState, events: seq<LocalEvent>)
    requires events == [] || events[0].StopRequest?
    ensures Run(cfg, s, events) == RunOutcome(s, [], events != [])
  {
  }

  /** The stored modification time never moves backwards, and moves forwards whenever a change is reported. */
  lemma {:induction false} RunAdvancesModTime(cfg: Config, s: LocalState, events: seq<LocalEvent>)
    ensures Run(cfg, s, events).state.modTime >= s.modTime
    ensures None in Run(cfg, s, events).calls ==> Run(cfg, s, events).state.modTime > s.modTime
    decreases |events|
  {
    if events != [] && events[0].Poll? {
      var t := LocalTick(cfg, s, events[0].stat, events[0].read);
      RunAdvancesModTime(cfg, t.state, events[1..]);
    }
  }

  /**
   * With `CheckMD5`, a file that is only touched, its content keeping the
   * stored digest, never produces a change callback: the only callbacks are
   * failed stats and reads, and the observations stay as they were.
   */
  lemma {:induction false} TouchWithoutEditIsSilent(cfg: Config, s: LocalState, events: seq<LocalEvent>)
    requires Options.MD5On(cfg.options)
    requires forall i :: 0 <= i < |events| && events[i].Poll? && events[i].read.Some? ==>
               cfg.md5(events[i].read.value) == s.checksum
    ensures forall e :: e in Run(cfg, s, events).calls ==>
              e == Some(StatFailed(cfg.path)) || e == Some(ReadFailed(cfg.path))
    ensures Run(cfg, s, events).state == s
    decreases |events|
  {
    if events != [] && events[0].Poll? {
      assert forall i :: 0 <= i < |events[1..]| ==> events[1..][i] == events[i + 1];
      TouchWithoutEditIsSilent(cfg, s, events[1..]);
    }
  }

  /** A file whose modification time never passes the stored one gives no callback except for failed stats. */
  lemma {:induction false} UnchangedTimestampIsSilent(cfg: Config, s: LocalState, events: seq<LocalEvent>)
    requires forall i :: 0 <= i < |events| && events[i].Poll? && events[i].stat.Stat? ==>
               events[i].stat.modTime <= s.modTime
    ensures forall e :: e in Run(cfg, s, events).calls ==> e.Some? && e.value == StatFailed(cfg.path)
    ensures Run(cfg, s, events).state == s
    decreases |events|
  {
    if events != [] && events[0].Poll? {
      assert forall i :: 0 <= i < |events[1..]| ==> events[1..][i] == events[i + 1];
      UnchangedTimestampIsSilent(cfg, s, events[1..]);
    }
  }

  class LocalWatcher {
    const path: Path
    const interval: int
    const options: Options.Option
    const md5: Bytes -> Digest
    var running: bool
    var modTime: int
    var checksum: Digest

    function Cfg(): Config {
      Config(path, options, md5)
    }

    function Observed(): LocalState
      reads this
    {
      LocalState(modTime, checksum)
    }

    /** The watcher `NewLocalWatcher` allocates: not running, nothing observed yet. */
    constructor (path: Path, interval: int, options: Options.Option, md5: Bytes -> Digest)
      ensures this.path == path && this.interval == interval && this.options == options && this.md5 == md5
      ensures !running && Observed() == LocalState(0, ZeroDigest)
    {
      this.path := path;
      this.interval := interval;
      this.options := options;
      this.md5 := md5;
      running := false;
      modTime := 0;
      checksum := ZeroDigest;
    }

    /**
     * `Start`: refuses a running watcher; otherwise seeds the modification
     * time from the stat and, with `CheckMD5`, the digest from the content.
     * Only full success marks the watcher running. A failed read comes after
     * the modification time has been seeded.
     */
    method Start(stat: StatResult, read: Option<Bytes>) returns (err: Option<Error>)
      modifies this
      ensures running <==> old(running) || err.None?
      ensures old(running) ==> err == Some(Running) && Observed() == old(Observed())
      ensures !old(running) && stat.StatError? ==> err == Some(StatFailed(path)) && Observed() == old(Observed())
      ensures !old(running) && stat.Stat? ==> modTime == stat.modTime
      ensures !old(running) && stat.Stat? && Options.MD5On(options) && read.None? ==>
                err == Some(ReadFailed(path)) && checksum == old(checksum)
      ensures !old(running) && stat.Stat? && Options.MD5On(options) && read.Some? ==>
                err.None? && checksum == md5(read.value)
      ensures !old(running) && stat.Stat? && !Options.MD5On(options) ==>
                err.None? && checksum == old(checksum)
    {
      if running {
        return Some(Running);
      }
      if stat.StatError? {
        return Some(StatFailed(path));
      }
      modTime := stat.modTime;
      if Options.MD5On(options) {
        if read.None? {
          return Some(ReadFailed(path));
        }
        checksum := md5(read.value);
      }
      running := true;
      // `go w.watchLocal()` launches the loop modelled by WatchLocal.
      err := None;
    }

    /** `Stop`: refuses a watcher that is not running; the hand-off to the loop is not modelled. */
    method Stop() returns (err: Option<Error>)
      ensures err.Some? <==> !running
      ensures err.Some? ==> err.value == Stopped
    {
      if !running {
        return Some(Stopped);
      }
      err := None;
    }

    /** One tick of `watchLocal`, returning what it does with the callback. */
    method Tick(stat: StatResult, read: Option<Bytes>) returns (cb: Callback)
      modifies this
      ensures running == old(running)
      ensures var t := LocalTick(Cfg(), old(Observed()), stat, read);
              cb == t.cb && Observed() == t.state
    {
      if stat.StatError? {
        return Call(Some(StatFailed(path)));
      }
      if !(stat.modTime > modTime) {
        return NoCall;
      }
      var sum := ZeroDigest;
      if Options.MD5On(options) {
        if read.None? {
          return Call(Some(ReadFailed(path)));
        }
        sum := md5(read.value);
        if sum == checksum {
          return NoCall;
        }
      }
      modTime := stat.modTime;
      checksum := sum;
      cb := Call(None);
    }

    /**
     * `watchLocal`: ticks until a stop request arrives, then clears `running`
     * (the deferred assignment). Returns the callback arguments in order.
     */
    method WatchLocal(events: seq<LocalEvent>) returns (calls: seq<Option<Error>>)
      modifies this
      ensures var r := Run(Cfg(), old(Observed()), events);
              calls == r.calls && Observed() == r.state
              && (r.stopped ==> !running) && (!r.stopped ==> running == old(running))
    {
      ghost var cfg := Cfg();
      ghost var whole := Run(cfg, Observed(), events);
      calls := [];
      var i := 0;
      while i < |events| && !events[i].StopRequest?
        invariant 0 <= i <= |events|
        invariant running == old(running)
        invariant var rest := Run(cfg, Observed(), events[i..]);
                  whole == rest.(calls := calls + rest.calls)
      {
        var ev := events[i];
        assert events[i..][0] == ev && events[i..][1..] == events[i + 1..];
        RunPollAfter(cfg, Observed(), events[i..], calls);
        var cb := Tick(ev.stat, ev.read);
        calls := calls + CallsOf(cb);
        i := i + 1;
      }
      RunEnd(cfg, Observed(), events[i..]);
      if i < |events| {
        running := false;
      }
    }
  }

  /** `NewLocalWatcher`: the argument checks, then a fresh watcher with the clamped interval and options. */
  method NewLocalWatcher(path: Path, interval: int, hasCallback: bool, options: Options.Option, md5: Bytes -> Digest)
    returns (w: LocalWatcher?, err: Option<Error>)
    ensures var r := CheckLocalArgs(path, interval, hasCallback, options);
            (r.Failure? ==> w == null && err == Some(r.error))
            && (r.Success? ==> err.None? && w != null && fresh(w) && w.path == path
                               && w.interval == r.value.interval && w.options == r.value.options && w.md5 == md5
                               && !w.running && w.Observed() == LocalState(0, ZeroDigest))
  {
    var r := CheckLocalArgs(path, interval, hasCallback, options);
    if r.Failure? {
      return null, Some(r.error);
    }
    w := new LocalWatcher(path, r.value.interval, r.value.options, md5);
    err := None;
  }
}
