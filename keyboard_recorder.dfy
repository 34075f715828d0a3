/** The keyboard recorder (src/keyboard/recorder.py): key presses are
    turned into text and buffered; the buffer is swapped for an empty one
    and flushed, under a time header, to the day's keylog.txt, whose path
    is then handed on. The listener thread and the periodic save thread are
    not modelled: a press is a call to `OnPress`, one wake-up of the save
    loop is a call to `SaveTick`. */
module KeyboardRecorder {
  import opened Wrappers
  import opened Strings
  import opened Helpers
  import opened Files
  import opened Work

  const LogName: string := "keylog.txt"

  /** A key as the listener reports it: a key code carrying a character,
      a key code without one (`text` is what `str` gives for it), or a
      member of `Key`, whose `str` is "Key." followed by its name. */
  datatype Key = Printable(ch: string) | Unnamed(text: string) | Special(name: string)

  /** `str(key).replace("Key.", "[") + "]"` */
  function KeyName(shown: string): string {
    ReplaceAll(shown, "Key.", "[") + "]"
  }

  /** What `_on_press` would append for a key; an empty text is not
      appended. */
  function KeyText(k: Key): string {
    match k
    case Printable(ch) => ch
    case Unnamed(text) => KeyName(text)
    case Special(name) =>
      if name == "space" then " "
      else if name == "enter" then "\n"
      else if name == "tab" then "\t"
      else if name == "backspace" then "[BKSP]"
      else KeyName("Key." + name)
  }

  /** What a press adds to the buffer: its text, when that is not empty. */
  function Accepted(k: Key): (r: seq<string>)
    ensures |r| <= 1
    ensures r != [] <==> KeyText(k) != ""
    ensures r != [] ==> r[0] == KeyText(k) && r[0] != ""
  {
    if KeyText(k) != "" then [KeyText(k)] else []
  }

  /** A key with a character yields that character; space, enter, tab
      and backspace their own texts; any other special key its name in
      brackets, so that "shift" is shown as "[shift]". */
  lemma SpecialKeyText(name: string)
    requires name !in {"space", "enter", "tab", "backspace"}
    requires !Contains(name, "Key.")
    ensures KeyText(Special(name)) == "[" + name + "]"
  {
    ReplaceLeading("Key.", name, "[");
    ReplaceAbsent(name, "Key.", "[");
  }

  /** A special key always produces some text. */
  lemma SpecialNeverEmpty(name: string)
    ensures KeyText(Special(name)) != ""
  {
    if name !in {"space", "enter", "tab", "backspace"} {
      var t := KeyText(Special(name));
      assert t[|t| - 1] == ']';
    }
  }

  /** The text of several presses, in order. */
  function Typed(keys: seq<Key>): string
    decreases |keys|
  {
    if |keys| == 0 then "" else Typed(keys[..|keys| - 1]) + KeyText(keys[|keys| - 1])
  }

  /** The buffer after several unpaused presses. */
  function Pressed(buffer: seq<string>, keys: seq<Key>): seq<string>
    decreases |keys|
  {
    if |keys| == 0 then buffer else Pressed(buffer, keys[..|keys| - 1]) + Accepted(keys[|keys| - 1])
  }

  /** Leaving out empty texts loses nothing: the flushed content of a
      buffer filled by presses is what was typed, in order. */
  lemma {:induction false} PressedContent(buffer: seq<string>, keys: seq<Key>)
    ensures Concat(Pressed(buffer, keys)) == Concat(buffer) + Typed(keys)
    decreases |keys|
  {
    if |keys| > 0 {
      var n := |keys| - 1;
      PressedContent(buffer, keys[..n]);
      var b := Pressed(buffer, keys[..n]);
      if KeyText(keys[n]) != "" {
        ConcatAppend(b, KeyText(keys[n]));
      } else {
        assert Pressed(buffer, keys) == b;
      }
    }
  }

  /** `data_dir / get_today_folder() / "keylog.txt"` */
  function LogPath(dataDir: string, day: Date): string
    requires day.Valid()
  {
    DayLog(dataDir, day, LogName)
  }

  /** `f"\n--- [{%H:%M:%S}] ---\n"` */
  function Header(c: Clock): string
    requires c.Valid()
  {
    "\n--- [" + ClockStamp(c) + "] ---\n"
  }

  /** What one flush appends: the header, the buffer's content and a
      newline. */
  function Flushed(c: Clock, content: string): string
    requires c.Valid()
  {
    Header(c) + content + "\n"
  }

  /** The flushed block gives back its time and its content: the header
      is 20 characters with the stamp at 6..14, and the content runs from
      there to the final newline. */
  lemma FlushedParts(c: Clock, content: string)
    requires c.Valid()
    ensures var r := Flushed(c, content);
      |r| == 21 + |content| && r[6..14] == ClockStamp(c) && r[20..|r| - 1] == content && r[|r| - 1] == '\n'
      && r[..6] == "\n--- [" && r[14..20] == "] ---\n"
  {
    ClockFormats(c);
    var r := Flushed(c, content);
    assert r == "\n--- [" + ClockStamp(c) + "] ---\n" + content + "\n";
  }

  class KeyboardRecorder {
    const dataDir: string
    /** `save_interval_minutes * 60` */
    const saveInterval: nat
    /** Whether an `on_log_ready` callback was given. */
    const hasCallback: bool
    var buffer: seq<string>
    var running: bool
    var paused: bool
    /** Whether a listener is attached. */
    var listening: bool
    /** The number of save threads `start` has launched. */
    var saversStarted: nat
    /** Every path handed to `on_log_ready`, in order. */
    var ready: seq<string>

    /** Every buffered entry is a non-empty text. */
    predicate Valid()
      reads this
    {
      forall i :: 0 <= i < |buffer| ==> buffer[i] != ""
    }

    constructor (dataDir: string, saveIntervalMinutes: nat, hasCallback: bool)
      ensures this.dataDir == dataDir && saveInterval == saveIntervalMinutes * 60 && this.hasCallback == hasCallback
      ensures buffer == [] && !running && !paused && !listening && saversStarted == 0 && ready == []
      ensures Valid()
    {
      this.dataDir := dataDir;
      saveInterval := saveIntervalMinutes * 60;
      this.hasCallback := hasCallback;
      buffer := [];
      running := false;
      paused := false;
      listening := false;
      saversStarted := 0;
      ready := [];
    }

    /** `_on_press`: ignored while paused; otherwise the key's text is
        appended, unless it is empty. */
    method OnPress(k: Key)
      requires Valid()
      modifies this
      ensures buffer == if old(paused) then old(buffer) else old(buffer) + Accepted(k)
      ensures Valid()
      ensures running == old(running) && paused == old(paused) && listening == old(listening)
      ensures saversStarted == old(saversStarted) && ready == old(ready)
    {
      if paused {
        return;
      }
      var text := KeyText(k);
      if text != "" {
        buffer := buffer + [text];
      }
    }

    /** `save_buffer`: nothing on an empty buffer. Otherwise the buffer is
        swapped for an empty one first, then the block is appended to the
        day's keylog.txt and its path handed to `on_log_ready`; when the
        write raises (`written` is false) the content is lost and the
        callback is not called. */
    method SaveBuffer(day: Date, clock: Clock, written: bool, disk: Disk)
      requires day.Valid() && clock.Valid()
      modifies this, disk
      ensures old(buffer) == [] ==> disk.files == old(disk.files) && ready == old(ready) && buffer == []
      ensures old(buffer) != [] ==>
        buffer == []
        && disk.files == (if written then Appended(old(disk.files), LogPath(dataDir, day), Flushed(clock, Concat(old(buffer)))) else old(disk.files))
        && ready == old(ready) + (if written && hasCallback then [LogPath(dataDir, day)] else [])
      ensures running == old(running) && paused == old(paused) && listening == old(listening) && saversStarted == old(saversStarted)
      ensures Valid()
    {
      if buffer == [] {
        return;
      }
      var content := Concat(buffer);
      buffer := [];
      if written {
        var path := LogPath(dataDir, day);
        disk.Append(path, Flushed(clock, content));
        if hasCallback {
          ready := ready + [path];
        }
      }
    }

    /** One wake-up of `_save_loop`: the save is skipped while paused. */
    method SaveTick(day: Date, clock: Clock, written: bool, disk: Disk)
      requires day.Valid() && clock.Valid()
      modifies this, disk
      ensures old(paused) ==> buffer == old(buffer) && disk.files == old(disk.files) && ready == old(ready)
      ensures !old(paused) && old(buffer) != [] ==>
        buffer == []
        && disk.files == (if written then Appended(old(disk.files), LogPath(dataDir, day), Flushed(clock, Concat(old(buffer)))) else old(disk.files))
        && ready == old(ready) + (if written && hasCallback then [LogPath(dataDir, day)] else [])
      ensures !old(paused) && old(buffer) == [] ==> buffer == [] && disk.files == old(disk.files) && ready == old(ready)
      ensures running == old(running) && paused == old(paused) && listening == old(listening) && saversStarted == old(saversStarted)
      ensures old(Valid()) ==> Valid()
    {
      if !paused {
        SaveBuffer(day, clock, written, disk);
      }
    }

    /** `start`: a no-op when running; otherwise it sets the flag, clears
        `paused`, attaches the listener and launches the save thread. The
        buffer is left as it is. */
    method Start()
      modifies this
      ensures old(running) ==> running && paused == old(paused) && listening == old(listening) && saversStarted == old(saversStarted)
      ensures !old(running) ==> running && !paused && listening && saversStarted == old(saversStarted) + 1
      ensures buffer == old(buffer) && ready == old(ready)
    {
      if running {
        return;
      }
      running := true;
      paused := false;
      listening := true;
      saversStarted := saversStarted + 1;
    }

    /** `stop`: clears the flag, detaches the listener and flushes what is
        left in the buffer, paused or not. */
    method Stop(day: Date, clock: Clock, written: bool, disk: Disk)
      requires day.Valid() && clock.Valid()
      modifies this, disk
      ensures !running && !listening && buffer == [] && paused == old(paused) && saversStarted == old(saversStarted)
      ensures old(buffer) == [] ==> disk.files == old(disk.files) && ready == old(ready)
      ensures old(buffer) != [] ==>
        disk.files == (if written then Appended(old(disk.files), LogPath(dataDir, day), Flushed(clock, Concat(old(buffer)))) else old(disk.files))
        && ready == old(ready) + (if written && hasCallback then [LogPath(dataDir, day)] else [])
      ensures Valid()
    {
      running := false;
      listening := false;
      SaveBuffer(day, clock, written, disk);
    }

    /** `pause`: only the flag; buffered keys stay. */
    method Pause()
      modifies this
      ensures paused
      ensures buffer == old(buffer) && running == old(running) && listening == old(listening)
      ensures saversStarted == old(saversStarted) && ready == old(ready)
    {
      paused := true;
    }

    /** `resume`: only the flag. */
    method Resume()
      modifies this
      ensures !paused
      ensures buffer == old(buffer) && running == old(running) && listening == old(listening)
      ensures saversStarted == old(saversStarted) && ready == old(ready)
    {
      paused := false;
    }
  }
}
