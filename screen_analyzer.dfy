/** The screen analyser (src/screen/analyzer.py): a FIFO queue of
    screenshots and the worker that describes each one with the vision
    model, appends the description to the day's analise_tela.txt and then
    deletes the screenshot unless screenshots are kept for backup. The
    worker thread's loop is `Drain`, one iteration per attempt. */
module ScreenAnalyzer {
  import opened Wrappers
  import opened Helpers
  import opened Files
  import opened Work
  import Config

  const LogName: string := "analise_tela.txt"
  const ModelKey: seq<string> := ["models", "screen_analysis"]
  const KeepScreenshotsKey: seq<string> := ["google_drive", "backup", "screenshots"]

  /** One `analyze_image` call: the screenshot, the prompt and the model. */
  datatype Request = Request(shot: FilePath, prompt: string, model: Config.Value)

  function LogPath(outputDir: string, day: Date): string
    requires day.Valid()
  {
    DayLog(outputDir, day, LogName)
  }

  /** `_delete_screenshot` deletes unless
      `google_drive.backup.screenshots` is truthy (default false). */
  predicate DeletesScreenshots(config: Config.Value) {
    !Config.Truthy(Config.Setting(config, KeepScreenshotsKey, Config.Bool(false)))
  }

  /** With no setting at all, screenshots are deleted after analysis. */
  lemma DeletesByDefault()
    ensures DeletesScreenshots(Config.Dict(map[]))
  {
  }

  /** The disk after one screenshot. When the call raised, nothing happens
      (the exception skips both the save and the delete). When it
      returned, the record is appended if the log could be written, and the
      screenshot is then deleted if so configured, whether or not the save
      succeeded; a failed delete is ignored, which removing an absent path
      reproduces. */
  function AfterShot(outputDir: string, files: map<string, string>, shot: FilePath, a: Attempt, delete: bool): map<string, string>
    requires a.day.Valid()
  {
    if a.result.Raised? then files
    else
      var saved := if a.saved then Appended(files, LogPath(outputDir, a.day), Tagged(shot.Stem(), a.result.text)) else files;
      if delete then saved - {shot.Full()} else saved
  }

  /** The disk after the screenshots, in queue order, each with its attempt. */
  function Analysed(outputDir: string, files: map<string, string>, shots: seq<FilePath>, attempts: seq<Attempt>, delete: bool): map<string, string>
    requires |shots| == |attempts| && AllValid(attempts)
    decreases |shots|
  {
    if |shots| == 0 then files
    else
      var n := |shots| - 1;
      AfterShot(outputDir, Analysed(outputDir, files, shots[..n], attempts[..n], delete), shots[n], attempts[n], delete)
  }

  /** The screenshots whose analysis came back: those a deleting analyser
      removes. */
  function Removed(shots: seq<FilePath>, attempts: seq<Attempt>): (r: set<string>)
    requires |shots| == |attempts|
    ensures forall i :: 0 <= i < |shots| && attempts[i].result.Done? ==> shots[i].Full() in r
    ensures forall p :: p in r ==> exists i :: 0 <= i < |shots| && attempts[i].result.Done? && shots[i].Full() == p
    decreases |shots|
  {
    if |shots| == 0 then {}
    else
      var n := |shots| - 1;
      var before := Removed(shots[..n], attempts[..n]);
      assert forall i :: 0 <= i < n ==> shots[..n][i] == shots[i] && attempts[..n][i] == attempts[i];
      if attempts[n].result.Done? then before + {shots[n].Full()} else before
  }

  /** The calls made for the screenshots: one per screenshot, in order. */
  function Requests(shots: seq<FilePath>, prompt: string, model: Config.Value): (r: seq<Request>)
    ensures |r| == |shots|
    decreases |shots|
  {
    if |shots| == 0 then [] else Requests(shots[..|shots| - 1], prompt, model) + [Request(shots[|shots| - 1], prompt, model)]
  }

  /** The calls are one per screenshot, each for the screenshot at the same position. */
  lemma {:induction false} RequestsOneEach(shots: seq<FilePath>, prompt: string, model: Config.Value)
    ensures forall i :: 0 <= i < |shots| ==> Requests(shots, prompt, model)[i] == Request(shots[i], prompt, model)
    decreases |shots|
  {
    if |shots| > 0 {
      var n := |shots| - 1;
      RequestsOneEach(shots[..n], prompt, model);
      assert forall i :: 0 <= i < n ==> shots[..n][i] == shots[i];
    }
  }

  /** Two days share a log only when they are the same day. */
  lemma SameLogIff(outputDir: string, d1: Date, d2: Date)
    requires d1.Valid() && d2.Valid()
    ensures LogPath(outputDir, d1) == LogPath(outputDir, d2) <==> d1 == d2
  {
    if LogPath(outputDir, d1) == LogPath(outputDir, d2) {
      DayLogInjective(outputDir, d1, d2, LogName);
    }
  }

  /** One screenshot adds its record to the log of its own day and to no
      other, as long as the screenshot is not itself that log. */
  lemma AfterShotLog(outputDir: string, files: map<string, string>, shot: FilePath, a: Attempt, delete: bool, day: Date)
    requires a.day.Valid() && day.Valid()
    requires shot.Full() != LogPath(outputDir, day)
    ensures ReadOr(AfterShot(outputDir, files, shot, a, delete), LogPath(outputDir, day))
      == ReadOr(files, LogPath(outputDir, day)) + Contribution(shot.Stem(), a, day)
  {
    if a.result.Done? && a.saved {
      SameLogIff(outputDir, a.day, day);
      ReadAppended(files, LogPath(outputDir, a.day), Tagged(shot.Stem(), a.result.text), LogPath(outputDir, day));
    }
  }

  /** Each day's log ends up as what it held before followed by the
      records of that day's successful, saved analyses, in queue order;
      deleting screenshots never touches a log. */
  lemma {:induction false} AnalysedLog(outputDir: string, files: map<string, string>, shots: seq<FilePath>, attempts: seq<Attempt>, delete: bool, day: Date)
    requires |shots| == |attempts| && AllValid(attempts) && day.Valid()
    requires forall i :: 0 <= i < |shots| ==> shots[i].Full() != LogPath(outputDir, day)
    ensures ReadOr(Analysed(outputDir, files, shots, attempts, delete), LogPath(outputDir, day))
      == ReadOr(files, LogPath(outputDir, day)) + DayRecords(Stems(shots), attempts, day)
    decreases |shots|
  {
    if |shots| > 0 {
      var n := |shots| - 1;
      AllValidPrefix(attempts, n);
      var path := LogPath(outputDir, day);
      var prev := Analysed(outputDir, files, shots[..n], attempts[..n], delete);
      var next := Analysed(outputDir, files, shots, attempts, delete);
      assert next == AfterShot(outputDir, prev, shots[n], attempts[n], delete);
      assert forall i :: 0 <= i < n ==> shots[..n][i] == shots[i];
      AnalysedLog(outputDir, files, shots[..n], attempts[..n], delete, day);
      AfterShotLog(outputDir, prev, shots[n], attempts[n], delete, day);
      var x := Contribution(shots[n].Stem(), attempts[n], day);
      var b := DayRecords(Stems(shots[..n]), attempts[..n], day);
      StemsPrefix(shots, n);
      assert DayRecords(Stems(shots), attempts, day) == b + x;
      LogGrows(ReadOr(files, path), b, x, ReadOr(prev, path), ReadOr(next, path));
    }
  }

  /** A file that is no day log survives the run exactly when it existed
      and was not a screenshot whose analysis came back while deleting is
      on; what survives is unchanged. With backups of screenshots
      enabled, no screenshot is ever lost. */
  lemma {:induction false} ScreenshotRetention(outputDir: string, files: map<string, string>, shots: seq<FilePath>, attempts: seq<Attempt>, delete: bool, p: string)
    requires |shots| == |attempts| && AllValid(attempts)
    requires forall i :: 0 <= i < |attempts| ==> p != LogPath(outputDir, attempts[i].day)
    ensures p in Analysed(outputDir, files, shots, attempts, delete)
      <==> p in files && !(delete && p in Removed(shots, attempts))
    ensures p in Analysed(outputDir, files, shots, attempts, delete) ==> Analysed(outputDir, files, shots, attempts, delete)[p] == files[p]
    decreases |shots|
  {
    if |shots| > 0 {
      var n := |shots| - 1;
      AllValidPrefix(attempts, n);
      assert forall i :: 0 <= i < n ==> attempts[..n][i] == attempts[i];
      ScreenshotRetention(outputDir, files, shots[..n], attempts[..n], delete, p);
    }
  }

  /** One worker iteration extends the run by one screenshot: the disk
      and the calls after it are those of the one-longer prefix of the
      queue. */
  lemma Advance(outputDir: string, files: map<string, string>, items: seq<FilePath>, attempts: seq<Attempt>, j: nat, delete: bool,
                prompt: string, model: Config.Value, r0: seq<Request>,
                before: map<string, string>, after: map<string, string>, sentBefore: seq<Request>, sentAfter: seq<Request>)
    requires j < |items| && j < |attempts| && AllValid(attempts[..j]) && AllValid(attempts[..j + 1])
    requires attempts[j].day.Valid()
    requires before == Analysed(outputDir, files, items[..j], attempts[..j], delete)
    requires after == AfterShot(outputDir, before, items[j], attempts[j], delete)
    requires sentBefore == r0 + Requests(items[..j], prompt, model)
    requires sentAfter == sentBefore + [Request(items[j], prompt, model)]
    ensures after == Analysed(outputDir, files, items[..j + 1], attempts[..j + 1], delete)
    ensures sentAfter == r0 + Requests(items[..j + 1], prompt, model)
  {
    PrefixOfPrefix(items, j);
    PrefixOfPrefix(attempts, j);
    var s := Requests(items[..j], prompt, model);
    assert (r0 + s) + [Request(items[j], prompt, model)] == r0 + (s + [Request(items[j], prompt, model)]);
  }

  class ScreenAnalyzer {
    const outputDir: string
    const model: Config.Value
    const prompt: string
    var queue: seq<FilePath>
    var running: bool
    /** The number of worker threads `start` has launched. */
    var workersStarted: nat
    /** Every `analyze_image` call, in order. */
    var requests: seq<Request>

    /** `__init__`: `model or config.get("models.screen_analysis")` and
        `analysis_prompt or` the configured prompt, which is given here as
        `configuredPrompt`. */
    constructor (outputDir: string, model: Option<string>, analysisPrompt: Option<string>, config: Config.Value, configuredPrompt: string)
      ensures this.outputDir == outputDir
      ensures model.Some? && model.value != "" ==> this.model == Config.Str(model.value)
      ensures model.None? || model.value == "" ==> this.model == Config.Setting(config, ModelKey, Config.Null)
      ensures prompt == if analysisPrompt.Some? && analysisPrompt.value != "" then analysisPrompt.value else configuredPrompt
      ensures queue == [] && !running && workersStarted == 0 && requests == []
    {
      this.outputDir := outputDir;
      this.model := if model.Some? && model.value != "" then Config.Str(model.value) else Config.Setting(config, ModelKey, Config.Null);
      this.prompt := if analysisPrompt.Some? && analysisPrompt.value != "" then analysisPrompt.value else configuredPrompt;
      queue := [];
      running := false;
      workersStarted := 0;
      requests := [];
    }

    /** `add_to_queue`: at the tail. */
    method AddToQueue(shot: FilePath)
      modifies this
      ensures queue == old(queue) + [shot]
      ensures running == old(running) && workersStarted == old(workersStarted) && requests == old(requests)
    {
      queue := queue + [shot];
    }

    /** `start`: a no-op when already running. */
    method Start()
      modifies this
      ensures running
      ensures workersStarted == if old(running) then old(workersStarted) else old(workersStarted) + 1
      ensures queue == old(queue) && requests == old(requests)
    {
      if running {
        return;
      }
      running := true;
      workersStarted := workersStarted + 1;
    }

    /** `stop`: clears the flag; the queue is left for the worker. */
    method Stop()
      modifies this
      ensures !running
      ensures queue == old(queue) && workersStarted == old(workersStarted) && requests == old(requests)
    {
      running := false;
    }

    /** One worker iteration on a non-empty queue. `config` is the
        configuration `_delete_screenshot` reads at that moment. */
    method Step(a: Attempt, config: Config.Value, disk: Disk)
      requires queue != [] && a.day.Valid()
      modifies this, disk
      ensures queue == old(queue)[1..]
      ensures requests == old(requests) + [Request(old(queue)[0], prompt, model)]
      ensures disk.files == AfterShot(outputDir, old(disk.files), old(queue)[0], a, DeletesScreenshots(config))
      ensures running == old(running) && workersStarted == old(workersStarted)
    {
      var shot := queue[0];
      queue := queue[1..];
      requests := requests + [Request(shot, prompt, model)];
      if a.result.Done? {
        if a.saved {
          disk.Append(LogPath(outputDir, a.day), Tagged(shot.Stem(), a.result.text));
        }
        var keep := Config.Setting(config, KeepScreenshotsKey, Config.Bool(false));
        if !Config.Truthy(keep) {
          disk.Remove(shot.Full());
        }
      }
    }

    /** `_worker`: loops while running or while the queue is non-empty, one
        attempt per iteration (a poll that times out on an empty queue),
        processing the first `min(|queue|, |attempts|)` screenshots. */
    method Drain(attempts: seq<Attempt>, config: Config.Value, disk: Disk)
      requires AllValid(attempts)
      modifies this, disk
      ensures var n := Min(|old(queue)|, |attempts|);
        queue == old(queue)[n..]
        && requests == old(requests) + Requests(old(queue)[..n], prompt, model)
        && disk.files == Analysed(outputDir, old(disk.files), old(queue)[..n], attempts[..n], DeletesScreenshots(config))
      ensures !old(running) && |attempts| >= |old(queue)| ==> queue == []
      ensures running == old(running) && workersStarted == old(workersStarted)
    {
      ghost var q0 := queue;
      ghost var f0 := disk.files;
      ghost var r0 := requests;
      ghost var delete := DeletesScreenshots(config);
      ghost var j := 0;
      var i := 0;
      while (running || queue != []) && i < |attempts|
        invariant 0 <= i <= |attempts| && j == Min(i, |q0|)
        invariant queue == q0[j..]
        invariant AllValid(attempts[..j])
        invariant requests == r0 + Requests(q0[..j], prompt, model)
        invariant disk.files == Analysed(outputDir, f0, q0[..j], attempts[..j], delete)
        invariant running == old(running) && workersStarted == old(workersStarted)
      {
        if queue != [] {
          assert q0[j] == queue[0];
          AllValidPrefix(attempts, j + 1);
          ghost var before, sentBefore := disk.files, requests;
          Step(attempts[i], config, disk);
          Advance(outputDir, f0, q0, attempts, j, delete, prompt, model, r0, before, disk.files, sentBefore, requests);
          j := j + 1;
        }
        i := i + 1;
      }
      assert j == Min(|q0|, |attempts|);
    }

    /** `get_queue_size` */
    function QueueSize(): (n: nat)
      reads this
      ensures n == |queue|
      ensures n == 0 <==> queue == []
    {
      |queue|
    }

    /** `get_today_analysis`: the day's log, or "" when there is none. */
    function TodayAnalysis(files: map<string, string>, today: Date): (text: string)
      requires today.Valid()
      ensures LogPath(outputDir, today) !in files ==> text == ""
      ensures LogPath(outputDir, today) in files ==> text == files[LogPath(outputDir, today)]
    {
      ReadOr(files, LogPath(outputDir, today))
    }
  }
}
