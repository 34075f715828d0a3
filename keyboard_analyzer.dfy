/** The keyboard analyser (src/keyboard/analyzer.py): a FIFO queue of
    keystroke-log files and the worker that reads each one, has it
    summarised when it holds anything but whitespace, and appends the
    summary, tagged with the time of saving, to the day's
    analise_teclado.txt. The worker thread's loop is `Drain`, one iteration
    per attempt. */
module KeyboardAnalyzer {
  import opened Wrappers
  import opened Strings
  import opened Helpers
  import opened Files
  import opened Work
  import Config

  const LogName: string := "analise_teclado.txt"
  /** The keyboard analyser defaults to the summary model. */
  const ModelKey: seq<string> := ["models", "summary"]

  /** One `generate_summary` call: the log's content, the prompt and the model. */
  datatype Request = Request(content: string, prompt: string, model: Config.Value)

  function LogPath(outputDir: string, day: Date): string
    requires day.Valid()
  {
    DayLog(outputDir, day, LogName)
  }

  /** A queued log leads to a call when it can be read and is not blank; a
      missing file raises and the item is dropped, a blank one is skipped. */
  predicate Sends(files: map<string, string>, log: FilePath) {
    log.Full() in files && !IsBlank(files[log.Full()])
  }

  /** The call one queued log leads to, given the disk at that moment. */
  function SentFor(files: map<string, string>, log: FilePath, prompt: string, model: Config.Value): (r: seq<Request>)
    ensures |r| <= 1
    ensures r != [] <==> Sends(files, log)
    ensures r != [] ==> r[0].content == files[log.Full()] && r[0].prompt == prompt && r[0].model == model
  {
    if Sends(files, log) then [Request(files[log.Full()], prompt, model)] else []
  }

  /** The disk after one queued log: the summary is appended, tagged with
      the clock at saving, only when the log was sent, the call returned
      and the log file could be written. */
  function AfterLog(outputDir: string, files: map<string, string>, log: FilePath, a: Attempt): map<string, string>
    requires a.day.Valid() && a.clock.Valid()
  {
    if Sends(files, log) && a.result.Done? && a.saved
    then Appended(files, LogPath(outputDir, a.day), Tagged(FileStamp(a.clock), a.result.text))
    else files
  }

  /** The disk after the queued logs, in order, each with its attempt. */
  function Analysed(outputDir: string, files: map<string, string>, logs: seq<FilePath>, attempts: seq<Attempt>): map<string, string>
    requires |logs| == |attempts| && AllValid(attempts)
    decreases |logs|
  {
    if |logs| == 0 then files
    else
      var n := |logs| - 1;
      AfterLog(outputDir, Analysed(outputDir, files, logs[..n], attempts[..n]), logs[n], attempts[n])
  }

  /** The calls made, each log read from the disk as the earlier ones left it. */
  function Sent(outputDir: string, files: map<string, string>, logs: seq<FilePath>, attempts: seq<Attempt>, prompt: string, model: Config.Value): seq<Request>
    requires |logs| == |attempts| && AllValid(attempts)
    decreases |logs|
  {
    if |logs| == 0 then []
    else
      var n := |logs| - 1;
      Sent(outputDir, files, logs[..n], attempts[..n], prompt, model)
      + SentFor(Analysed(outputDir, files, logs[..n], attempts[..n]), logs[n], prompt, model)
  }

  /** One worker iteration extends the run by one log: the disk after it
      is that of the one-longer prefix of the queue. */
  lemma AdvanceFiles(outputDir: string, files: map<string, string>, logs: seq<FilePath>, attempts: seq<Attempt>, j: nat,
                     before: map<string, string>, after: map<string, string>)
    requires j < |logs| && j < |attempts| && AllValid(attempts[..j]) && AllValid(attempts[..j + 1])
    requires attempts[j].day.Valid() && attempts[j].clock.Valid()
    requires before == Analysed(outputDir, files, logs[..j], attempts[..j])
    requires after == AfterLog(outputDir, before, logs[j], attempts[j])
    ensures after == Analysed(outputDir, files, logs[..j + 1], attempts[..j + 1])
  {
    PrefixOfPrefix(logs, j);
    PrefixOfPrefix(attempts, j);
  }

  /** ... and the calls made so far are those of that prefix. */
  lemma AdvanceSent(outputDir: string, files: map<string, string>, logs: seq<FilePath>, attempts: seq<Attempt>, j: nat,
                    prompt: string, model: Config.Value, r0: seq<Request>, sentBefore: seq<Request>, sentAfter: seq<Request>)
    requires j < |logs| && j < |attempts| && AllValid(attempts[..j]) && AllValid(attempts[..j + 1])
    requires sentBefore == r0 + Sent(outputDir, files, logs[..j], attempts[..j], prompt, model)
    requires sentAfter == sentBefore + SentFor(Analysed(outputDir, files, logs[..j], attempts[..j]), logs[j], prompt, model)
    ensures sentAfter == r0 + Sent(outputDir, files, logs[..j + 1], attempts[..j + 1], prompt, model)
  {
    PrefixOfPrefix(logs, j);
    PrefixOfPrefix(attempts, j);
    var s := Sent(outputDir, files, logs[..j], attempts[..j], prompt, model);
    var x := SentFor(Analysed(outputDir, files, logs[..j], attempts[..j]), logs[j], prompt, model);
    assert (r0 + s) + x == r0 + (s + x);
  }

  /** The reference: one call per queued log that is present and not blank
      on the initial disk, in queue order. */
  function Wanted(files: map<string, string>, logs: seq<FilePath>, prompt: string, model: Config.Value): (r: seq<Request>)
    ensures |r| <= |logs|
    decreases |logs|
  {
    if |logs| == 0 then []
    else
      var n := |logs| - 1;
      Wanted(files, logs[..n], prompt, model) + SentFor(files, logs[n], prompt, model)
  }

  /** What the run adds to the log of `day`: a record per log sent whose
      summary was saved on that day. */
  function KeyRecords(files: map<string, string>, logs: seq<FilePath>, attempts: seq<Attempt>, day: Date): string
    requires |logs| == |attempts| && AllValid(attempts)
    decreases |logs|
  {
    if |logs| == 0 then ""
    else
      var n := |logs| - 1;
      var a := attempts[n];
      KeyRecords(files, logs[..n], attempts[..n], day)
      + (if Sends(files, logs[n]) then Contribution(FileStamp(a.clock), a, day) else "")
  }

  /** The queued logs are plain file names other than the analysis file's
      own name, so no keystroke log is ever a day's analysis file. */
  predicate Apart(logs: seq<FilePath>) {
    forall i :: 0 <= i < |logs| ==> '/' !in logs[i].name && logs[i].name != LogName
  }

  lemma NotALog(outputDir: string, log: FilePath, day: Date)
    requires '/' !in log.name && log.name != LogName && day.Valid()
    ensures log.Full() != LogPath(outputDir, day)
  {
    if log.Full() == LogPath(outputDir, day) {
      SameName(log.dir, log.name, Files.Under(outputDir, DayFolder(day)), LogName);
    }
  }

  /** Two days share a log only when they are the same day. */
  lemma SameLogIff(outputDir: string, d1: Date, d2: Date)
    requires d1.Valid() && d2.Valid()
    ensures LogPath(outputDir, d1) == LogPath(outputDir, d2) <==> d1 == d2
  {
    if LogPath(outputDir, d1) == LogPath(outputDir, d2) {
      DayLogInjective(outputDir, d1, d2, LogName);
    }
  }

  /** The analyser never deletes a file and writes only day logs: any
      other file, the keystroke logs among them, keeps its content. */
  lemma {:induction false} AnalysedKeepsFiles(outputDir: string, files: map<string, string>, logs: seq<FilePath>, attempts: seq<Attempt>, p: string)
    requires |logs| == |attempts| && AllValid(attempts)
    requires forall j :: 0 <= j < |attempts| ==> p != LogPath(outputDir, attempts[j].day)
    ensures p in Analysed(outputDir, files, logs, attempts) <==> p in files
    ensures p in files ==> Analysed(outputDir, files, logs, attempts)[p] == files[p]
    decreases |logs|
  {
    if |logs| > 0 {
      var n := |logs| - 1;
      AllValidPrefix(attempts, n);
      assert forall j :: 0 <= j < n ==> attempts[..n][j] == attempts[j];
      AnalysedKeepsFiles(outputDir, files, logs[..n], attempts[..n], p);
    }
  }

  /** The logs before position `n` leave the `n`-th log as it was. */
  lemma LaterLogUntouched(outputDir: string, files: map<string, string>, logs: seq<FilePath>, attempts: seq<Attempt>, n: nat)
    requires n < |logs| == |attempts| && AllValid(attempts[..n]) && Apart(logs)
    ensures var prev := Analysed(outputDir, files, logs[..n], attempts[..n]);
      (logs[n].Full() in prev <==> logs[n].Full() in files)
      && (logs[n].Full() in files ==> prev[logs[n].Full()] == files[logs[n].Full()])
  {
    forall j | 0 <= j < n
      ensures logs[n].Full() != LogPath(outputDir, attempts[..n][j].day)
    {
      NotALog(outputDir, logs[n], attempts[..n][j].day);
    }
    AnalysedKeepsFiles(outputDir, files, logs[..n], attempts[..n], logs[n].Full());
  }

  /** Every queued log is read as it was when the run began, so the calls
      made are exactly the reference ones: blank and missing logs cause no
      call, and the order is the queue's. */
  lemma {:induction false} SentIsWanted(outputDir: string, files: map<string, string>, logs: seq<FilePath>, attempts: seq<Attempt>, prompt: string, model: Config.Value)
    requires |logs| == |attempts| && AllValid(attempts) && Apart(logs)
    ensures Sent(outputDir, files, logs, attempts, prompt, model) == Wanted(files, logs, prompt, model)
    decreases |logs|
  {
    if |logs| > 0 {
      var n := |logs| - 1;
      AllValidPrefix(attempts, n);
      assert Apart(logs[..n]);
      SentIsWanted(outputDir, files, logs[..n], attempts[..n], prompt, model);
      var prev := Analysed(outputDir, files, logs[..n], attempts[..n]);
      LaterLogUntouched(outputDir, files, logs, attempts, n);
      assert SentFor(prev, logs[n], prompt, model) == SentFor(files, logs[n], prompt, model);
    }
  }

  /** One queued log adds its record to the log of its own day and to no other. */
  lemma AfterLogLog(outputDir: string, files: map<string, string>, log: FilePath, a: Attempt, day: Date)
    requires a.day.Valid() && a.clock.Valid() && day.Valid()
    ensures ReadOr(AfterLog(outputDir, files, log, a), LogPath(outputDir, day))
      == ReadOr(files, LogPath(outputDir, day)) + (if Sends(files, log) then Contribution(FileStamp(a.clock), a, day) else "")
  {
    if Sends(files, log) && a.result.Done? && a.saved {
      SameLogIff(outputDir, a.day, day);
      ReadAppended(files, LogPath(outputDir, a.day), Tagged(FileStamp(a.clock), a.result.text), LogPath(outputDir, day));
    }
  }

  /** Each day's analysis file ends up as what it held before followed by
      the records of that day's saved summaries, in queue order. */
  lemma {:induction false} AnalysedLog(outputDir: string, files: map<string, string>, logs: seq<FilePath>, attempts: seq<Attempt>, day: Date)
    requires |logs| == |attempts| && AllValid(attempts) && Apart(logs) && day.Valid()
    ensures ReadOr(Analysed(outputDir, files, logs, attempts), LogPath(outputDir, day))
      == ReadOr(files, LogPath(outputDir, day)) + KeyRecords(files, logs, attempts, day)
    decreases |logs|
  {
    if |logs| > 0 {
      var n := |logs| - 1;
      AllValidPrefix(attempts, n);
      assert Apart(logs[..n]);
      var path := LogPath(outputDir, day);
      var prev := Analysed(outputDir, files, logs[..n], attempts[..n]);
      var next := Analysed(outputDir, files, logs, attempts);
      assert next == AfterLog(outputDir, prev, logs[n], attempts[n]);
      AnalysedLog(outputDir, files, logs[..n], attempts[..n], day);
      LaterLogUntouched(outputDir, files, logs, attempts, n);
      assert Sends(prev, logs[n]) == Sends(files, logs[n]);
      AfterLogLog(outputDir, prev, logs[n], attempts[n], day);
      var a := attempts[n];
      var x := if Sends(files, logs[n]) then Contribution(FileStamp(a.clock), a, day) else "";
      var b := KeyRecords(files, logs[..n], attempts[..n], day);
      assert KeyRecords(files, logs, attempts, day) == b + x;
      LogGrows(ReadOr(files, path), b, x, ReadOr(prev, path), ReadOr(next, path));
    }
  }

  class KeyboardAnalyzer {
    const outputDir: string
    const model: Config.Value
    const prompt: string
    var queue: seq<FilePath>
    var running: bool
    /** The number of worker threads `start` has launched. */
    var workersStarted: nat
    /** Every `generate_summary` call, in order. */
    var requests: seq<Request>

    /** `__init__`: `model or config.get("models.summary")` and
        `analysis_prompt or` the configured prompt, given here as
        `configuredPrompt`. */
    constructor (outputDir: string, model: Option<string>, analysisPrompt: Option<string>, config: Config.Value, configuredPrompt: string)
      ensures this.outputDir == outputDir
      ensures model.Some? && model.value != "" ==> this.model == Config.Str(model.value)
      ensures model.None? || model.value == "" ==> this.model == Config.Setting(config, ModelKey, Config.Null)
      ensures prompt == if analysisPrompt.Some? && analysisPrompt.value != "" then analysisPrompt.value else configuredPrompt
      ensures queue == [] && !running && workersStarted == 0 && requests == []
    {
      this.outputDir := outputDir;
      this.model := if model.Some? && model.value != "" then Config.Str(model.value) else Config.Setting(config, ModelKey, Config.Null);
      this.prompt := if analysisPrompt.Some? && analysisPrompt.value != "" then analysisPrompt.value else configuredPrompt;
      queue := [];
      running := false;
      workersStarted := 0;
      requests := [];
    }

    /** `add_to_queue`: at the tail. */
    method AddToQueue(log: FilePath)
      modifies this
      ensures queue == old(queue) + [log]
      ensures running == old(running) && workersStarted == old(workersStarted) && requests == old(requests)
    {
      queue := queue + [log];
    }

    /** `start`: a no-op when already running. */
    method Start()
      modifies this
      ensures running
      ensures workersStarted == if old(running) then old(workersStarted) else old(workersStarted) + 1
      ensures queue == old(queue) && requests == old(requests)
    {
      if running {
        return;
      }
      running := true;
      workersStarted := workersStarted + 1;
    }

    /** `stop`: clears the flag; the queue is left for the worker. */
    method Stop()
      modifies this
      ensures !running
      ensures queue == old(queue) && workersStarted == old(workersStarted) && requests == old(requests)
    {
      running := false;
    }

    /** One worker iteration on a non-empty queue: read the log, skip it
        when it is missing or blank, otherwise summarise and append. */
    method Step(a: Attempt, disk: Disk)
      requires queue != [] && a.day.Valid() && a.clock.Valid()
      modifies this, disk
      ensures queue == old(queue)[1..]
      ensures requests == old(requests) + SentFor(old(disk.files), old(queue)[0], prompt, model)
      ensures disk.files == AfterLog(outputDir, old(disk.files), old(queue)[0], a)
      ensures running == old(running) && workersStarted == old(workersStarted)
    {
      var log := queue[0];
      queue := queue[1..];
      if log.Full() !in disk.files {
        return;
      }
      var content := disk.files[log.Full()];
      if IsBlank(content) {
        return;
      }
      requests := requests + [Request(content, prompt, model)];
      if a.result.Done? && a.saved {
        disk.Append(LogPath(outputDir, a.day), Tagged(FileStamp(a.clock), a.result.text));
      }
    }

    /** `_worker`: loops while running or while the queue is non-empty, one
        attempt per iteration (a poll that times out on an empty queue),
        processing the first `min(|queue|, |attempts|)` logs. */
    method Drain(attempts: seq<Attempt>, disk: Disk)
      requires AllValid(attempts)
      modifies this, disk
      ensures var n := Min(|old(queue)|, |attempts|);
        queue == old(queue)[n..]
        && requests == old(requests) + Sent(outputDir, old(disk.files), old(queue)[..n], attempts[..n], prompt, model)
        && disk.files == Analysed(outputDir, old(disk.files), old(queue)[..n], attempts[..n])
      ensures !old(running) && |attempts| >= |old(queue)| ==> queue == []
      ensures running == old(running) && workersStarted == old(workersStarted)
    {
      ghost var q0 := queue;
      ghost var f0 := disk.files;
      ghost var r0 := requests;
      ghost var j := 0;
      var i := 0;
      while (running || queue != []) && i < |attempts|
        invariant 0 <= i <= |attempts| && j == Min(i, |q0|)
        invariant queue == q0[j..]
        invariant AllValid(attempts[..j])
        invariant requests == r0 + Sent(outputDir, f0, q0[..j], attempts[..j], prompt, model)
        invariant disk.files == Analysed(outputDir, f0, q0[..j], attempts[..j])
        invariant running == old(running) && workersStarted == old(workersStarted)
      {
        if queue != [] {
          assert q0[j] == queue[0];
          AllValidPrefix(attempts, j + 1);
          ghost var before, sentBefore := disk.files, requests;
          Step(attempts[i], disk);
          AdvanceFiles(outputDir, f0, q0, attempts, j, before, disk.files);
          AdvanceSent(outputDir, f0, q0, attempts, j, prompt, model, r0, sentBefore, requests);
          j := j + 1;
        }
        i := i + 1;
      }
      assert j == Min(|q0|, |attempts|);
    }

    /** `get_today_analysis`: the day's file, or "" when there is none. */
    function TodayAnalysis(files: map<string, string>, today: Date): (text: string)
      requires today.Valid()
      ensures LogPath(outputDir, today) !in files ==> text == ""
      ensures LogPath(outputDir, today) in files ==> text == files[LogPath(outputDir, today)]
    {
      ReadOr(files, LogPath(outputDir, today))
    }
  }
}
