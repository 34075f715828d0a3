/** The task scheduler (src/system/scheduler.py): the callback table, the
    two daily jobs that `start` schedules and `stop` clears, and `run_now`.
    The `schedule` library's clock matching and the polling thread are not
    modelled; a job falling due is a call to `RunJob`. What the library's
    `at` accepts as a daily time is modelled, since a refused summary time
    makes `start` raise. Callbacks are named by opaque numbers, and the
    scheduler records which ones it has invoked. */
module Scheduler {
  import opened Wrappers
  import opened Helpers
  import Config

  const SummaryTimeKey: seq<string> := ["schedule", "summary_time"]
  const TimezoneKey: seq<string> := ["schedule", "timezone"]
  const DefaultSummaryTime: string := "22:00"
  const CleanupTime: string := "00:30"

  datatype Task = SummaryTask | CleanupTask

  /** One daily job: the time it is set for and what it runs. */
  datatype Job = Job(at: Config.Value, task: Task)

  /** The callback each task invokes. */
  function CallbackName(task: Task): string {
    match task
    case SummaryTask => "on_summary_time"
    case CleanupTask => "on_cleanup"
  }

  /** The task `run_now` runs for a name, if any. */
  function TaskNamed(name: string): (r: Option<Task>)
    ensures r == Some(SummaryTask) <==> name == "summary"
    ensures r == Some(CleanupTask) <==> name == "cleanup"
    ensures r.None? <==> name != "summary" && name != "cleanup"
  {
    if name == "summary" then Some(SummaryTask) else if name == "cleanup" then Some(CleanupTask) else None
  }

  /** The callbacks a trigger invokes: the registered one, or none. */
  function Fired(callbacks: map<string, nat>, task: Task): (r: seq<nat>)
    ensures |r| <= 1
    ensures r != [] <==> CallbackName(task) in callbacks
    ensures r != [] ==> r[0] == callbacks[CallbackName(task)]
  {
    if CallbackName(task) in callbacks then [callbacks[CallbackName(task)]] else []
  }

  /** The two triggers never invoke each other's callback. */
  lemma TriggersApart(callbacks: map<string, nat>)
    ensures CallbackName(SummaryTask) != CallbackName(CleanupTask)
    ensures "on_summary_time" !in callbacks ==> Fired(callbacks, SummaryTask) == []
    ensures "on_cleanup" !in callbacks ==> Fired(callbacks, CleanupTask) == []
  {
  }

  // ---------------------------------------------------------------------
  // The times `at` accepts

  /** A two-digit field whose leading digit is at most `top`. */
  predicate Field(s: string, top: char) {
    |s| == 2 && '0' <= s[0] <= top && IsDigit(s[1])
  }

  /** The text the library's pattern is matched against: its `$` also
      matches before one final newline, which `int()` then ignores. */
  function Trimmed(s: string): string {
    if |s| > 0 && s[|s| - 1] == '\n' then s[..|s| - 1] else s
  }

  /** Whether `every().day.at(v)` accepts `v`: a string of the form
      "HH:MM" or "HH:MM:SS" with the hour at most 23 and the minutes and
      seconds at most 59. Anything else, a number included, raises. */
  predicate ValidAt(v: Config.Value) {
    v.Str? &&
    var s := Trimmed(v.s);
    (|s| == 5 || |s| == 8) && Field(s[..2], '2') && s[2] == ':' && Field(s[3..5], '5')
    && (|s| == 8 ==> s[5] == ':' && Field(s[6..], '5'))
    && Value(s[..2]) <= 23
  }

  /** The time of day an accepted value denotes. */
  function AtClock(v: Config.Value): Clock
    requires ValidAt(v)
  {
    var s := Trimmed(v.s);
    Clock(Value(s[..2]), Value(s[3..5]), if |s| == 8 then Value(s[6..]) else 0)
  }

  lemma FieldValue(s: string, top: char)
    requires Field(s, top)
    ensures Value(s) == DigitValue(s[0]) * 10 + DigitValue(s[1])
    ensures top == '5' ==> Value(s) < 60
  {
    var t := s[1..];
    assert t[1..] == [] && t[0] == s[1];
    assert Value(t) == DigitValue(s[1]) * Pow10(0) + Value(t[1..]);
    assert Value(s) == DigitValue(s[0]) * Pow10(1) + Value(t);
  }

  /** Every accepted value denotes a valid time of day. */
  lemma AcceptedIsClock(v: Config.Value)
    requires ValidAt(v)
    ensures AtClock(v).Valid()
  {
    var s := Trimmed(v.s);
    FieldValue(s[3..5], '5');
    if |s| == 8 {
      FieldValue(s[6..], '5');
    }
  }

  /** Every time of day is accepted, written "HH:MM:SS" or "HH:MM", and
      denotes itself (to the minute in the short form). */
  lemma ClockAccepted(c: Clock)
    requires c.Valid()
    ensures ValidAt(Config.Str(ClockStamp(c))) && AtClock(Config.Str(ClockStamp(c))) == c
    ensures ValidAt(Config.Str(ClockStamp(c)[..5])) && AtClock(Config.Str(ClockStamp(c)[..5])) == Clock(c.hour, c.minute, 0)
  {
    ClockFormats(c);
    var s := ClockStamp(c);
    Widths();
    assert s[..2] == Pad(c.hour, 2) && s[3..5] == Pad(c.minute, 2) && s[6..] == Pad(c.second, 2);
    PadTwo(c.hour, '2');
    PadTwo(c.minute, '5');
    PadTwo(c.second, '5');
    var t := s[..5];
    assert t[..2] == s[..2] && t[3..5] == s[3..5];
  }

  /** An hour padded to two digits is a field led by a digit up to '2',
      and a minute or second one led by a digit up to '5'. */
  lemma PadTwo(n: nat, top: char)
    requires top == '2' || top == '5'
    requires if top == '2' then n < 24 else n < 60
    ensures Pow10(2) == 100 && Field(Pad(n, 2), top)
  {
    Widths();
    PadValue(n, 2);
    PadStep(n, 2, 10);
  }

  /** The default summary time and the clean-up time are accepted; an
      hour past 23, a time in another notation, and a time the YAML
      parser read as a number are not. */
  lemma SummaryTimes()
    ensures ValidAt(Config.Str(DefaultSummaryTime)) && ValidAt(Config.Str(CleanupTime))
    ensures !ValidAt(Config.Str("25:00")) && !ValidAt(Config.Str("22h")) && !ValidAt(Config.Int(1320))
  {
    var a, b, c := DefaultSummaryTime, CleanupTime, "25:00";
    assert Trimmed(a) == a && Trimmed(b) == b && Trimmed(c) == c;
    assert a[..2] == "22" && a[3..5] == "00";
    assert b[..2] == "00" && b[3..5] == "30";
    assert c[..2] == "25";
    FieldValue("22", '2');
    FieldValue("00", '2');
    FieldValue("25", '2');
  }

  /** The jobs `start` schedules: the summary at the configured time, the
      clean-up at 00:30. */
  function DailyJobs(summaryTime: Config.Value): seq<Job> {
    [Job(summaryTime, SummaryTask), Job(Config.Str(CleanupTime), CleanupTask)]
  }

  class TaskScheduler {
    const summaryTime: Config.Value
    const timezone: Config.Value
    var callbacks: map<string, nat>
    var running: bool
    /** The `schedule` library's job table. */
    var jobs: seq<Job>
    /** The number of polling threads `start` has launched. */
    var threadsStarted: nat
    /** Every callback invoked, in order. */
    var calls: seq<nat>

    /** `__init__`: the summary time defaults to "22:00". */
    constructor (config: Config.Value)
      ensures summaryTime == Config.Setting(config, SummaryTimeKey, Config.Str(DefaultSummaryTime))
      ensures timezone == Config.Setting(config, TimezoneKey, Config.Str("America/Sao_Paulo"))
      ensures callbacks == map[] && !running && jobs == [] && threadsStarted == 0 && calls == []
    {
      summaryTime := Config.Setting(config, SummaryTimeKey, Config.Str(DefaultSummaryTime));
      timezone := Config.Setting(config, TimezoneKey, Config.Str("America/Sao_Paulo"));
      callbacks := map[];
      running := false;
      jobs := [];
      threadsStarted := 0;
      calls := [];
    }

    /** `register_callback`: overwrites the entry for that name. */
    method RegisterCallback(name: string, callback: nat)
      modifies this
      ensures callbacks == old(callbacks)[name := callback]
      ensures running == old(running) && jobs == old(jobs) && threadsStarted == old(threadsStarted) && calls == old(calls)
    {
      callbacks := callbacks[name := callback];
    }

    /** `_trigger_daily_summary` and `_trigger_cleanup`: the registered
        callback, if any; its exception is swallowed. */
    method Trigger(task: Task)
      modifies this
      ensures calls == old(calls) + Fired(callbacks, task)
      ensures callbacks == old(callbacks) && running == old(running) && jobs == old(jobs) && threadsStarted == old(threadsStarted)
    {
      var name := CallbackName(task);
      if name in callbacks {
        calls := calls + [callbacks[name]];
      }
    }

    /** `start`: a no-op when running; otherwise the two daily jobs, the
        flag and the polling thread. `ok` is false when `at` refuses the
        summary time and raises: nothing is scheduled then and the flag
        stays clear. */
    method Start() returns (ok: bool)
      modifies this
      ensures ok <==> old(running) || ValidAt(summaryTime)
      ensures running == ok
      ensures old(running) || !ok ==> jobs == old(jobs) && threadsStarted == old(threadsStarted)
      ensures !old(running) && ok ==> jobs == old(jobs) + DailyJobs(summaryTime) && threadsStarted == old(threadsStarted) + 1
      ensures callbacks == old(callbacks) && calls == old(calls)
    {
      if running {
        return true;
      }
      if !ValidAt(summaryTime) {
        return false;
      }
      jobs := jobs + DailyJobs(summaryTime);
      running := true;
      threadsStarted := threadsStarted + 1;
      ok := true;
    }

    /** `stop`: clears the flag and every scheduled job. */
    method Stop()
      modifies this
      ensures !running && jobs == []
      ensures callbacks == old(callbacks) && calls == old(calls) && threadsStarted == old(threadsStarted)
    {
      running := false;
      jobs := [];
    }

    /** `run_pending` finding job `j` due: it runs that job's trigger. */
    method RunJob(j: nat)
      requires j < |jobs|
      modifies this
      ensures jobs == old(jobs)
      ensures calls == old(calls) + Fired(callbacks, old(jobs)[j].task)
      ensures callbacks == old(callbacks) && running == old(running) && threadsStarted == old(threadsStarted)
    {
      Trigger(jobs[j].task);
    }

    /** `run_now`: "summary" and "cleanup" run their trigger; any other
        name does nothing. */
    method RunNow(name: string)
      modifies this
      ensures TaskNamed(name).Some? ==> calls == old(calls) + Fired(callbacks, TaskNamed(name).value)
      ensures TaskNamed(name).None? ==> calls == old(calls)
      ensures callbacks == old(callbacks) && running == old(running) && jobs == old(jobs) && threadsStarted == old(threadsStarted)
    {
      if name == "summary" {
        Trigger(SummaryTask);
      } else if name == "cleanup" {
        Trigger(CleanupTask);
      }
    }
  }
}
