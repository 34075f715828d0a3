/** The audio transcriber (src/audio/transcriber.py): a FIFO queue of audio
    chunks and the worker that transcribes each one and appends the text to
    the day's transcricao.txt. The worker thread's loop is `Drain`, one
    iteration of it per attempt; timeouts and thread joins are not part of
    the model. */
module Transcriber {
  import opened Wrappers
  import opened Helpers
  import opened Files
  import opened Work
  import Config

  const LogName: string := "transcricao.txt"
  const Language: string := "pt"
  const ModelKey: seq<string> := ["models", "transcription"]

  /** One `transcribe_audio` call: the chunk, the model and the language. */
  datatype Request = Request(audio: FilePath, model: Config.Value, language: string)

  function LogPath(outputDir: string, day: Date): string
    requires day.Valid()
  {
    DayLog(outputDir, day, LogName)
  }

  /** The record of one chunk: tagged with the chunk's stem. */
  function Record(audio: FilePath, text: string): string {
    Tagged(audio.Stem(), text)
  }

  /** The disk after one chunk: the record is appended only when the
      transcription came back and the log could be written. */
  function AfterItem(outputDir: string, files: map<string, string>, audio: FilePath, a: Attempt): map<string, string>
    requires a.day.Valid()
  {
    if a.result.Done? && a.saved then Appended(files, LogPath(outputDir, a.day), Record(audio, a.result.text))
    else files
  }

  /** The disk after the chunks, in queue order, each with its attempt. */
  function Transcribed(outputDir: string, files: map<string, string>, items: seq<FilePath>, attempts: seq<Attempt>): map<string, string>
    requires |items| == |attempts| && AllValid(attempts)
    decreases |items|
  {
    if |items| == 0 then files
    else
      var n := |items| - 1;
      AfterItem(outputDir, Transcribed(outputDir, files, items[..n], attempts[..n]), items[n], attempts[n])
  }

  /** The calls made for the chunks: one per chunk, in queue order. */
  function Requests(items: seq<FilePath>, model: Config.Value): (r: seq<Request>)
    ensures |r| == |items|
    decreases |items|
  {
    if |items| == 0 then [] else Requests(items[..|items| - 1], model) + [Request(items[|items| - 1], model, Language)]
  }

  /** The calls are one per chunk, each for the chunk at the same position. */
  lemma {:induction false} RequestsOneEach(items: seq<FilePath>, model: Config.Value)
    ensures forall i :: 0 <= i < |items| ==> Requests(items, model)[i] == Request(items[i], model, Language)
    decreases |items|
  {
    if |items| > 0 {
      var n := |items| - 1;
      RequestsOneEach(items[..n], model);
      assert forall i :: 0 <= i < n ==> items[..n][i] == items[i];
    }
  }

  /** Two days share a log only when they are the same day. */
  lemma SameLogIff(outputDir: string, d1: Date, d2: Date)
    requires d1.Valid() && d2.Valid()
    ensures LogPath(outputDir, d1) == LogPath(outputDir, d2) <==> d1 == d2
  {
    if LogPath(outputDir, d1) == LogPath(outputDir, d2) {
      DayLogInjective(outputDir, d1, d2, LogName);
    }
  }

  /** One chunk adds its record to the log of its own day and to no other. */
  lemma AfterItemLog(outputDir: string, files: map<string, string>, audio: FilePath, a: Attempt, day: Date)
    requires a.day.Valid() && day.Valid()
    ensures ReadOr(AfterItem(outputDir, files, audio, a), LogPath(outputDir, day))
      == ReadOr(files, LogPath(outputDir, day)) + Contribution(audio.Stem(), a, day)
  {
    if a.result.Done? && a.saved {
      SameLogIff(outputDir, a.day, day);
      ReadAppended(files, LogPath(outputDir, a.day), Record(audio, a.result.text), LogPath(outputDir, day));
    }
  }

  /** Each day's log ends up as what it held before followed by that day's
      records: earlier content is kept, failed chunks add nothing, and the
      records keep the queue's order. */
  lemma {:induction false} TranscribedLog(outputDir: string, files: map<string, string>, items: seq<FilePath>, attempts: seq<Attempt>, day: Date)
    requires |items| == |attempts| && AllValid(attempts) && day.Valid()
    ensures ReadOr(Transcribed(outputDir, files, items, attempts), LogPath(outputDir, day))
      == ReadOr(files, LogPath(outputDir, day)) + DayRecords(Stems(items), attempts, day)
    decreases |items|
  {
    if |items| > 0 {
      var n := |items| - 1;
      AllValidPrefix(attempts, n);
      var path := LogPath(outputDir, day);
      var prev := Transcribed(outputDir, files, items[..n], attempts[..n]);
      var next := Transcribed(outputDir, files, items, attempts);
      assert next == AfterItem(outputDir, prev, items[n], attempts[n]);
      TranscribedLog(outputDir, files, items[..n], attempts[..n], day);
      AfterItemLog(outputDir, prev, items[n], attempts[n], day);
      var x := Contribution(items[n].Stem(), attempts[n], day);
      var b := DayRecords(Stems(items[..n]), attempts[..n], day);
      StemsPrefix(items, n);
      assert DayRecords(Stems(items), attempts, day) == b + x;
      LogGrows(ReadOr(files, path), b, x, ReadOr(prev, path), ReadOr(next, path));
    }
  }

  /** The transcriber never deletes a file, and touches no file but the
      day logs: in particular the audio chunks stay on disk. */
  lemma {:induction false} TranscribedKeepsFiles(outputDir: string, files: map<string, string>, items: seq<FilePath>, attempts: seq<Attempt>, p: string)
    requires |items| == |attempts| && AllValid(attempts)
    requires forall i :: 0 <= i < |attempts| ==> p != LogPath(outputDir, attempts[i].day)
    ensures p in files ==> p in Transcribed(outputDir, files, items, attempts)
    ensures p in Transcribed(outputDir, files, items, attempts) <==> p in files
    ensures p in files ==> Transcribed(outputDir, files, items, attempts)[p] == files[p]
    decreases |items|
  {
    if |items| > 0 {
      var n := |items| - 1;
      assert AllValid(attempts[..n]);
      TranscribedKeepsFiles(outputDir, files, items[..n], attempts[..n], p);
    }
  }

  /** One worker iteration extends the run by one chunk: the disk
      and the calls after it are those of the one-longer prefix of the
      queue. */
  lemma Advance(outputDir: string, files: map<string, string>, items: seq<FilePath>, attempts: seq<Attempt>, j: nat,
                model: Config.Value, r0: seq<Request>,
                before: map<string, string>, after: map<string, string>, sentBefore: seq<Request>, sentAfter: seq<Request>)
    requires j < |items| && j < |attempts| && AllValid(attempts[..j]) && AllValid(attempts[..j + 1])
    requires attempts[j].day.Valid()
    requires before == Transcribed(outputDir, files, items[..j], attempts[..j])
    requires after == AfterItem(outputDir, before, items[j], attempts[j])
    requires sentBefore == r0 + Requests(items[..j], model)
    requires sentAfter == sentBefore + [Request(items[j], model, Language)]
    ensures after == Transcribed(outputDir, files, items[..j + 1], attempts[..j + 1])
    ensures sentAfter == r0 + Requests(items[..j + 1], model)
  {
    PrefixOfPrefix(items, j);
    PrefixOfPrefix(attempts, j);
    var s := Requests(items[..j], model);
    assert (r0 + s) + [Request(items[j], model, Language)] == r0 + (s + [Request(items[j], model, Language)]);
  }

  class AudioTranscriber {
    const outputDir: string
    const model: Config.Value
    var queue: seq<FilePath>
    var running: bool
    /** The number of worker threads `start` has launched. */
    var workersStarted: nat
    /** Every `transcribe_audio` call, in order. */
    var requests: seq<Request>

    /** `__init__`: `model or config.get("models.transcription")`, the
        key read by its segments. */
    constructor (outputDir: string, model: Option<string>, config: Config.Value)
      ensures this.outputDir == outputDir
      ensures model.Some? && model.value != "" ==> this.model == Config.Str(model.value)
      ensures model.None? || model.value == "" ==> this.model == Config.Setting(config, ModelKey, Config.Null)
      ensures queue == [] && !running && workersStarted == 0 && requests == []
    {
      this.outputDir := outputDir;
      this.model := if model.Some? && model.value != "" then Config.Str(model.value) else Config.Setting(config, ModelKey, Config.Null);
      queue := [];
      running := false;
      workersStarted := 0;
      requests := [];
    }

    /** `add_to_queue`: at the tail. */
    method AddToQueue(audio: FilePath)
      modifies this
      ensures queue == old(queue) + [audio]
      ensures running == old(running) && workersStarted == old(workersStarted) && requests == old(requests)
    {
      queue := queue + [audio];
    }

    /** `start`: a no-op when already running; otherwise it sets the flag
        and launches one worker. */
    method Start()
      modifies this
      ensures running
      ensures workersStarted == if old(running) then old(workersStarted) else old(workersStarted) + 1
      ensures queue == old(queue) && requests == old(requests)
    {
      if running {
        return;
      }
      running := true;
      workersStarted := workersStarted + 1;
    }

    /** `stop`: clears the flag; the queue is left for the worker. */
    method Stop()
      modifies this
      ensures !running
      ensures queue == old(queue) && workersStarted == old(workersStarted) && requests == old(requests)
    {
      running := false;
    }

    /** One worker iteration on a non-empty queue: take the head, call the
        transcriber, append on success. A failed chunk is dropped. */
    method Step(a: Attempt, disk: Disk)
      requires queue != [] && a.day.Valid()
      modifies this, disk
      ensures queue == old(queue)[1..]
      ensures requests == old(requests) + [Request(old(queue)[0], model, Language)]
      ensures disk.files == AfterItem(outputDir, old(disk.files), old(queue)[0], a)
      ensures running == old(running) && workersStarted == old(workersStarted)
    {
      var audio := queue[0];
      queue := queue[1..];
      requests := requests + [Request(audio, model, Language)];
      if a.result.Done? && a.saved {
        disk.Append(LogPath(outputDir, a.day), Record(audio, a.result.text));
      }
    }

    /** `_worker`: loops while running or while the queue is non-empty, one
        attempt per iteration; an iteration on an empty queue is a poll
        that times out. It processes the first `min(|queue|, |attempts|)`
        chunks, so once stopped it empties the queue given enough
        attempts. */
    method Drain(attempts: seq<Attempt>, disk: Disk)
      requires AllValid(attempts)
      modifies this, disk
      ensures var n := Min(|old(queue)|, |attempts|);
        queue == old(queue)[n..]
        && requests == old(requests) + Requests(old(queue)[..n], model)
        && disk.files == Transcribed(outputDir, old(disk.files), old(queue)[..n], attempts[..n])
      ensures !old(running) && |attempts| >= |old(queue)| ==> queue == []
      ensures running == old(running) && workersStarted == old(workersStarted)
    {
      ghost var q0 := queue;
      ghost var f0 := disk.files;
      ghost var r0 := requests;
      ghost var j := 0;
      var i := 0;
      while (running || queue != []) && i < |attempts|
        invariant 0 <= i <= |attempts| && j == Min(i, |q0|)
        invariant queue == q0[j..]
        invariant AllValid(attempts[..j])
        invariant requests == r0 + Requests(q0[..j], model)
        invariant disk.files == Transcribed(outputDir, f0, q0[..j], attempts[..j])
        invariant running == old(running) && workersStarted == old(workersStarted)
      {
        if queue != [] {
          assert q0[j] == queue[0];
          AllValidPrefix(attempts, j + 1);
          ghost var before, sentBefore := disk.files, requests;
          Step(attempts[i], disk);
          Advance(outputDir, f0, q0, attempts, j, model, r0, before, disk.files, sentBefore, requests);
          j := j + 1;
        }
        i := i + 1;
      }
      assert j == Min(|q0|, |attempts|);
    }

    /** `get_today_transcription` */
    function TodayTranscription(files: map<string, string>, today: Date): (text: string)
      requires today.Valid()
      ensures LogPath(outputDir, today) !in files ==> text == ""
      ensures LogPath(outputDir, today) in files ==> text == files[LogPath(outputDir, today)]
    {
      ReadOr(files, LogPath(outputDir, today))
    }
  }
}
