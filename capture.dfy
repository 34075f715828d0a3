/** The screen capture (src/screen/capture.py): the privacy check on the
    active window's title, the choice of monitor, the screenshot's file
    name, one iteration of the capture loop and the running and paused
    flags. Grabbing and encoding pixels is not modelled: whether a grab
    and a save succeed, and the encoded image, are inputs. */
module ScreenCapture {
  import opened Wrappers
  import opened Strings
  import opened Helpers
  import opened Files
  import Config

  const MonitorKey: seq<string> := ["screen", "monitor"]
  const FormatKey: seq<string> := ["screen", "format"]

  // ---------------------------------------------------------------------
  // _should_skip_capture

  /** Some excluded name, lower-cased, occurs in the lower-cased title. */
  predicate Mentions(title: string, names: seq<string>) {
    exists i :: 0 <= i < |names| && Contains(Lower(title), Lower(names[i]))
  }

  /** The capture is skipped when an excluded application or window is
      mentioned in the title. */
  predicate Skips(title: string, apps: seq<string>, windows: seq<string>) {
    Mentions(title, apps) || Mentions(title, windows)
  }

  /** An empty entry in either list matches every title, the empty title
      of an unreadable window included. */
  lemma EmptyEntrySkipsAll(title: string, apps: seq<string>, windows: seq<string>)
    requires "" in apps || "" in windows
    ensures Skips(title, apps, windows)
  {
    EmptyContained(Lower(title));
    if "" in apps {
      var i :| 0 <= i < |apps| && apps[i] == "";
      assert Lower(apps[i]) == "";
      assert Contains(Lower(title), Lower(apps[i]));
    } else {
      var i :| 0 <= i < |windows| && windows[i] == "";
      assert Lower(windows[i]) == "";
      assert Contains(Lower(title), Lower(windows[i]));
    }
  }

  /** Lower-casing makes the check blind to case: a title and its
      lower-cased form are skipped alike. */
  lemma SkipsIgnoresCase(title: string, apps: seq<string>, windows: seq<string>)
    ensures Skips(Lower(title), apps, windows) <==> Skips(title, apps, windows)
  {
    LowerIdempotent(title);
  }

  // ---------------------------------------------------------------------
  // Monitor selection

  /** The setting as Python compares it: an int, or a bool standing for
      0 or 1; anything else raises on comparison. */
  function AsIndex(v: Config.Value): Option<int> {
    match v
    case Int(i) => Some(i)
    case Bool(b) => Some(if b then 1 else 0)
    case _ => None
  }

  /** `monitors[i]` for a list of `count` monitors: negative indices count
      from the end, anything else out of range raises. */
  function PyIndex(i: int, count: nat): (r: Option<nat>)
    ensures r.Some? ==> r.value < count
    ensures r.Some? <==> -(count as int) <= i < count
  {
    if 0 <= i < count then Some(i) else if -(count as int) <= i < 0 then Some(count as int + i) else None
  }

  /** The capture loop's choice: `monitors[index]` when index < count,
      `monitors[1]` otherwise. `None` is the exception that ends the
      thread before its loop. */
  function LoopMonitor(index: Config.Value, count: nat): (r: Option<nat>)
    ensures r.Some? ==> r.value < count
  {
    match AsIndex(index)
    case None => None
    case Some(i) => if i < count then PyIndex(i, count) else PyIndex(1, count)
  }

  /** `capture_once`'s choice: `monitors[min(index, count - 1)]`. */
  function OnceMonitor(index: Config.Value, count: nat): (r: Option<nat>)
    ensures r.Some? ==> r.value < count
  {
    match AsIndex(index)
    case None => None
    case Some(i) => PyIndex(if i < count - 1 then i else count - 1, count)
  }

  /** With the usual list (the combined screen at 0, the primary at 1)
      and a non-negative index: the loop takes the index when it is in
      range and the primary otherwise, and `capture_once` clamps to the
      last monitor. They agree whenever the index is in range, and differ
      past it once there are more than two entries. */
  lemma MonitorChoices(i: nat, count: nat)
    requires count >= 2
    ensures LoopMonitor(Config.Int(i), count) == Some(if i < count then i else 1)
    ensures OnceMonitor(Config.Int(i), count) == Some(if i < count then i else count - 1)
    ensures i < count ==> LoopMonitor(Config.Int(i), count) == OnceMonitor(Config.Int(i), count)
    ensures i >= count && count > 2 ==> LoopMonitor(Config.Int(i), count) != OnceMonitor(Config.Int(i), count)
  {
  }

  /** With no setting the combined screen is chosen by both. */
  lemma DefaultMonitor(count: nat)
    requires count >= 1
    ensures LoopMonitor(Config.Setting(Config.Dict(map[]), MonitorKey, Config.Int(0)), count) == Some(0)
    ensures OnceMonitor(Config.Setting(Config.Dict(map[]), MonitorKey, Config.Int(0)), count) == Some(0)
  {
  }

  // ---------------------------------------------------------------------
  // _save_screenshot naming

  /** "%Hh%Mm%Ss" followed by ".jpg" when the format is "jpg", ".png"
      for any other setting. */
  function ShotName(clock: Clock, format: Config.Value): string
    requires clock.Valid()
  {
    FileStamp(clock) + (if format == Config.Str("jpg") then ".jpg" else ".png")
  }

  /** `output_dir / get_today_folder() / name` */
  function ShotPath(outputDir: string, day: Date, clock: Clock, format: Config.Value): FilePath
    requires day.Valid() && clock.Valid()
  {
    FilePath(Under(outputDir, DayFolder(day)), ShotName(clock, format))
  }

  /** The screenshot's stem is its time stamp, which the screen analyser
      uses as the tag of its record, and its suffix follows the format. */
  lemma ShotNameParts(clock: Clock, format: Config.Value)
    requires clock.Valid()
    ensures NameStem(ShotName(clock, format)) == FileStamp(clock)
    ensures NameSuffix(ShotName(clock, format)) == (if format == Config.Str("jpg") then ".jpg" else ".png")
  {
    var stamp := FileStamp(clock);
    FileStampFormat(clock);
    var ext := if format == Config.Str("jpg") then "jpg" else "png";
    assert ShotName(clock, format) == stamp + "." + ext;
    NameSuffixOf(stamp, ext);
    NameStemSuffix(stamp + "." + ext);
  }

  class ScreenCapture {
    const interval: int
    const outputDir: string
    const hasCallback: bool
    const monitorIndex: Config.Value
    const format: Config.Value
    const excludedApps: seq<string>
    const excludedWindows: seq<string>
    var running: bool
    var paused: bool
    /** The number of capture threads `start` has launched. */
    var threadsStarted: nat
    /** Every path handed to `on_capture_ready`, in order. */
    var emitted: seq<FilePath>

    /** `__init__`: the monitor defaults to 0 and the format to "jpg";
        the exclusion lists are passed as read from `privacy.*`. */
    constructor (intervalSeconds: int, outputDir: string, hasCallback: bool, config: Config.Value,
                 excludedApps: seq<string>, excludedWindows: seq<string>)
      ensures interval == intervalSeconds && this.outputDir == outputDir && this.hasCallback == hasCallback
      ensures monitorIndex == Config.Setting(config, MonitorKey, Config.Int(0))
      ensures format == Config.Setting(config, FormatKey, Config.Str("jpg"))
      ensures this.excludedApps == excludedApps && this.excludedWindows == excludedWindows
      ensures !running && !paused && threadsStarted == 0 && emitted == []
    {
      interval := intervalSeconds;
      this.outputDir := outputDir;
      this.hasCallback := hasCallback;
      monitorIndex := Config.Setting(config, MonitorKey, Config.Int(0));
      format := Config.Setting(config, FormatKey, Config.Str("jpg"));
      this.excludedApps := excludedApps;
      this.excludedWindows := excludedWindows;
      running := false;
      paused := false;
      threadsStarted := 0;
      emitted := [];
    }

    /** `_should_skip_capture`, given the active window's title ("" when
        it cannot be read): the two loops with their early returns. */
    method ShouldSkipCapture(title: string) returns (skip: bool)
      ensures skip <==> Skips(title, excludedApps, excludedWindows)
    {
      var t := Lower(title);
      for i := 0 to |excludedApps|
        invariant forall k :: 0 <= k < i ==> !Contains(t, Lower(excludedApps[k]))
      {
        if Contains(t, Lower(excludedApps[i])) {
          return true;
        }
      }
      for i := 0 to |excludedWindows|
        invariant forall k :: 0 <= k < i ==> !Contains(t, Lower(excludedWindows[k]))
      {
        if Contains(t, Lower(excludedWindows[i])) {
          return true;
        }
      }
      return false;
    }

    /** One iteration of `_capture_loop`. Paused or excluded: nothing but
        the wait. Otherwise the grab, then the save, then the callback
        when the save returned a path; an exception anywhere ends the
        iteration. */
    method Tick(title: string, day: Date, clock: Clock, grabbed: bool, saved: bool, image: string, disk: Disk)
      requires day.Valid() && clock.Valid()
      modifies this, disk
      ensures var captures := !old(paused) && !Skips(title, excludedApps, excludedWindows) && grabbed && saved;
        var path := ShotPath(outputDir, day, clock, format);
        disk.files == (if captures then old(disk.files)[path.Full() := image] else old(disk.files))
        && emitted == old(emitted) + (if captures && hasCallback then [path] else [])
      ensures running == old(running) && paused == old(paused) && threadsStarted == old(threadsStarted)
    {
      if paused {
        return;
      }
      var skip := ShouldSkipCapture(title);
      if skip || !grabbed || !saved {
        return;
      }
      var path := ShotPath(outputDir, day, clock, format);
      disk.Write(path.Full(), image);
      if hasCallback {
        emitted := emitted + [path];
      }
    }

    /** `start`: false and no change when already running; otherwise the
        flags are set, the thread launched and the result is true. */
    method Start() returns (started: bool)
      modifies this
      ensures started == !old(running)
      ensures running
      ensures started ==> !paused && threadsStarted == old(threadsStarted) + 1
      ensures !started ==> paused == old(paused) && threadsStarted == old(threadsStarted)
      ensures emitted == old(emitted)
    {
      if running {
        return false;
      }
      running := true;
      paused := false;
      threadsStarted := threadsStarted + 1;
      return true;
    }

    /** `stop`: a no-op when not running; otherwise it clears the flag. */
    method Stop()
      modifies this
      ensures !running
      ensures paused == old(paused) && threadsStarted == old(threadsStarted) && emitted == old(emitted)
    {
      if !running {
        return;
      }
      running := false;
    }

    method Pause()
      modifies this
      ensures paused
      ensures running == old(running) && threadsStarted == old(threadsStarted) && emitted == old(emitted)
    {
      paused := true;
    }

    method Resume()
      modifies this
      ensures !paused
      ensures running == old(running) && threadsStarted == old(threadsStarted) && emitted == old(emitted)
    {
      paused := false;
    }

    /** `capture_once`, with `count` monitors: the clamped index, the
        grab and the save. An out-of-range index or a failed grab raises
        to the caller; a failed save gives `None`. */
    method CaptureOnce(count: nat, day: Date, clock: Clock, grabbed: bool, saved: bool, image: string, disk: Disk)
      returns (r: Result<Option<FilePath>>)
      requires day.Valid() && clock.Valid()
      modifies disk
      ensures OnceMonitor(monitorIndex, count).None? || !grabbed ==> r.Failure? && disk.files == old(disk.files)
      ensures OnceMonitor(monitorIndex, count).Some? && grabbed && !saved ==> r == Ok(None) && disk.files == old(disk.files)
      ensures OnceMonitor(monitorIndex, count).Some? && grabbed && saved ==>
        var path := ShotPath(outputDir, day, clock, format);
        r == Ok(Some(path)) && disk.files == old(disk.files)[path.Full() := image]
    {
      var monitor := OnceMonitor(monitorIndex, count);
      if monitor.None? {
        return Failure("list index out of range");
      }
      if !grabbed {
        return Failure("grab failed");
      }
      if !saved {
        return Ok(None);
      }
      var path := ShotPath(outputDir, day, clock, format);
      disk.Write(path.Full(), image);
      return Ok(Some(path));
    }
  }
}
