/** The daily summary (src/summary/generator.py): the day's three texts
    (transcriptions, screen analyses, keyboard analyses) are put together
    in a fixed order under their headers, summarised by one call and the
    result saved, replacing any earlier summary of that day, as resumo.md.
    The summariser is an input: its reply, or the exception it raises. */
module Summary {
  import opened Wrappers
  import opened Strings
  import opened Helpers
  import opened Files
  import Config

  const Sentinel: string := "Nenhum conteúdo foi capturado hoje."
  const TranscriptsHeader: string := "### TRANSCRIÇÕES DE ÁUDIO ###"
  const ScreenHeader: string := "\n### ANÁLISES DE TELA ###"
  const KeyboardHeader: string := "\n### ANÁLISES DE TECLADO ###"
  const ModelKey: seq<string> := ["models", "summary"]

  /** One `generate_summary` call: the content, the prompt and the model. */
  datatype Request = Request(content: string, prompt: string, model: Config.Value)

  /** `content_parts`: each non-empty text after its header, transcriptions
      first, then the screen, then the keyboard. */
  function Parts(transcripts: string, screen: string, keyboard: string): seq<string> {
    (if transcripts != "" then [TranscriptsHeader, transcripts] else [])
    + (if screen != "" then [ScreenHeader, screen] else [])
    + (if keyboard != "" then [KeyboardHeader, keyboard] else [])
  }

  /** `"\n".join(content_parts)` */
  function Content(transcripts: string, screen: string, keyboard: string): string {
    Join(Parts(transcripts, screen, keyboard), "\n")
  }

  /** One section as it reads in the content: its header, a newline and
      its text. */
  function Section(header: string, text: string): string {
    header + "\n" + text
  }

  /** The sections present, in the fixed order. */
  function Sections(transcripts: string, screen: string, keyboard: string): (r: seq<string>)
    ensures |r| == |Parts(transcripts, screen, keyboard)| / 2
  {
    (if transcripts != "" then [Section(TranscriptsHeader, transcripts)] else [])
    + (if screen != "" then [Section(ScreenHeader, screen)] else [])
    + (if keyboard != "" then [Section(KeyboardHeader, keyboard)] else [])
  }

  /** Header-and-text pairs laid out flat, as the source appends them. */
  function Flatten(pairs: seq<(string, string)>): (r: seq<string>)
    ensures |r| == 2 * |pairs|
  {
    if |pairs| == 0 then [] else [pairs[0].0, pairs[0].1] + Flatten(pairs[1..])
  }

  /** Each pair read as one section. */
  function AsSections(pairs: seq<(string, string)>): (r: seq<string>)
    ensures |r| == |pairs|
  {
    if |pairs| == 0 then [] else [Section(pairs[0].0, pairs[0].1)] + AsSections(pairs[1..])
  }

  /** Joining the flat list with newlines is joining the sections with
      newlines: every header is followed by its own text. */
  lemma {:induction false} JoinPairs(pairs: seq<(string, string)>)
    ensures Join(Flatten(pairs), "\n") == Join(AsSections(pairs), "\n")
    decreases |pairs|
  {
    if |pairs| > 0 {
      var h, t := pairs[0].0, pairs[0].1;
      var rest := Flatten(pairs[1..]);
      JoinPairs(pairs[1..]);
      var flat := [h, t] + rest;
      assert flat[1..] == [t] + rest;
      if |pairs| == 1 {
        assert rest == [];
        assert Join([t], "\n") == t;
        assert AsSections(pairs) == [Section(h, t)];
      } else {
        assert ([t] + rest)[1..] == rest;
        assert Join([t] + rest, "\n") == t + "\n" + Join(rest, "\n");
        assert AsSections(pairs)[1..] == AsSections(pairs[1..]);
      }
    }
  }

  /** The sections present, as header-and-text pairs. */
  function Present(transcripts: string, screen: string, keyboard: string): seq<(string, string)> {
    (if transcripts != "" then [(TranscriptsHeader, transcripts)] else [])
    + (if screen != "" then [(ScreenHeader, screen)] else [])
    + (if keyboard != "" then [(KeyboardHeader, keyboard)] else [])
  }

  lemma {:induction false} FlattenAppend(a: seq<(string, string)>, b: seq<(string, string)>)
    ensures Flatten(a + b) == Flatten(a) + Flatten(b)
    ensures AsSections(a + b) == AsSections(a) + AsSections(b)
    decreases |a|
  {
    if |a| > 0 {
      assert (a + b)[1..] == a[1..] + b;
      FlattenAppend(a[1..], b);
    } else {
      assert a + b == b;
    }
  }

  /** The content is the present sections, in the fixed order, separated
      by newlines; the texts are never interleaved. */
  lemma ContentIsSections(transcripts: string, screen: string, keyboard: string)
    ensures Content(transcripts, screen, keyboard) == Join(Sections(transcripts, screen, keyboard), "\n")
  {
    var t := if transcripts != "" then [(TranscriptsHeader, transcripts)] else [];
    var s := if screen != "" then [(ScreenHeader, screen)] else [];
    var k := if keyboard != "" then [(KeyboardHeader, keyboard)] else [];
    FlattenAppend(t, s);
    FlattenAppend(t + s, k);
    assert Parts(transcripts, screen, keyboard) == Flatten(t + s + k);
    assert Sections(transcripts, screen, keyboard) == AsSections(t + s + k);
    JoinPairs(t + s + k);
  }

  /** With all three texts, the content is laid out in full. */
  lemma ContentOfAll(transcripts: string, screen: string, keyboard: string)
    requires transcripts != "" && screen != "" && keyboard != ""
    ensures Content(transcripts, screen, keyboard)
      == TranscriptsHeader + "\n" + transcripts + "\n" + ScreenHeader + "\n" + screen + "\n" + KeyboardHeader + "\n" + keyboard
  {
    ContentIsSections(transcripts, screen, keyboard);
    JoinThree(Section(TranscriptsHeader, transcripts), Section(ScreenHeader, screen), Section(KeyboardHeader, keyboard), "\n");
  }

  /** `date or get_today_folder()` */
  function DayName(date: string, today: Date): string
    requires today.Valid()
  {
    if date != "" then date else DayFolder(today)
  }

  /** The header `_save_summary` puts before the summary. */
  function SavedHeader(day: string, now: Date, clock: Clock): string
    requires now.Valid() && clock.Valid()
  {
    "# Resumo do dia " + day + "\n*Gerado em " + GeneratedStamp(now, clock) + "*\n\n---\n\n"
  }

  /** The saved file ends with the summary, after a header naming the day. */
  lemma SavedParts(day: string, now: Date, clock: Clock, summary: string)
    requires now.Valid() && clock.Valid()
    ensures var saved := SavedHeader(day, now, clock) + summary;
      var h := |SavedHeader(day, now, clock)|;
      saved[h..] == summary && saved[..16 + |day|] == "# Resumo do dia " + day
  {
    var saved := SavedHeader(day, now, clock) + summary;
    assert saved[..16 + |day|] == ("# Resumo do dia " + day + ("\n*Gerado em " + GeneratedStamp(now, clock) + "*\n\n---\n\n") + summary)[..16 + |day|];
  }

  /** The message standing for a failed `write_text`, whose text comes
      from the operating system. */
  const SaveFailed := "summary not saved"

  /** What `generate` gives back for the day's three texts: the sentinel
      when all are empty, otherwise the reply; the summariser's exception
      is a failure carrying its message, a failed save one carrying
      `SaveFailed`. */
  function GenerateResult(transcripts: string, screen: string, keyboard: string, reply: Outcome, written: bool): (r: Result<string>)
    ensures r.Failure? <==> (transcripts != "" || screen != "" || keyboard != "") && (reply.Raised? || !written)
    ensures r == Ok(Sentinel) <== transcripts == "" && screen == "" && keyboard == ""
    ensures (transcripts != "" || screen != "" || keyboard != "") && reply.Raised? ==> r == Failure(reply.message)
  {
    if transcripts == "" && screen == "" && keyboard == "" then Ok(Sentinel)
    else if reply.Raised? then Failure(reply.message)
    else if !written then Failure(SaveFailed)
    else Ok(reply.text)
  }

  class SummaryGenerator {
    const model: Config.Value
    const prompt: string
    const transcriptionsDir: string
    const screenAnalysisDir: string
    const keyboardAnalysisDir: string
    const outputDir: string
    /** Every `generate_summary` call, in order. */
    var requests: seq<Request>

    /** `__init__`: the summary model from the settings; the prompt as
        `get_prompt` loaded it. */
    constructor (config: Config.Value, prompt: string, root: string)
      ensures model == Config.Setting(config, ModelKey, Config.Null) && this.prompt == prompt
      ensures transcriptionsDir == Under(Under(root, "data"), "transcriptions")
      ensures screenAnalysisDir == Under(Under(root, "data"), "screen_analysis")
      ensures keyboardAnalysisDir == Under(Under(root, "data"), "keyboard_analysis")
      ensures outputDir == Under(Under(root, "data"), "summaries")
      ensures requests == []
    {
      model := Config.Setting(config, ModelKey, Config.Null);
      this.prompt := prompt;
      transcriptionsDir := Under(Under(root, "data"), "transcriptions");
      screenAnalysisDir := Under(Under(root, "data"), "screen_analysis");
      keyboardAnalysisDir := Under(Under(root, "data"), "keyboard_analysis");
      outputDir := Under(Under(root, "data"), "summaries");
      requests := [];
    }

    function TranscriptsPath(day: string): string reads this {
      Under(Under(transcriptionsDir, day), "transcricao.txt")
    }

    function ScreenPath(day: string): string reads this {
      Under(Under(screenAnalysisDir, day), "analise_tela.txt")
    }

    function KeyboardPath(day: string): string reads this {
      Under(Under(keyboardAnalysisDir, day), "analise_teclado.txt")
    }

    function SummaryPath(day: string): string reads this {
      Under(Under(outputDir, day), "resumo.md")
    }

    /** `generate`. A day with no text at all gives the sentinel, with no
        call and no file. Otherwise one summariser call on the assembled
        content; its reply is saved and returned unchanged. The call's or
        the save's exception reaches the caller. */
    method Generate(date: string, now: Date, clock: Clock, reply: Outcome, written: bool, disk: Disk)
      returns (r: Result<string>)
      requires now.Valid() && clock.Valid()
      modifies this, disk
      ensures var day := DayName(date, now);
        var t, s, k := ReadOr(old(disk.files), TranscriptsPath(day)), ReadOr(old(disk.files), ScreenPath(day)), ReadOr(old(disk.files), KeyboardPath(day));
        r == GenerateResult(t, s, k, reply, written)
        && if t == "" && s == "" && k == "" then
          r == Ok(Sentinel) && requests == old(requests) && disk.files == old(disk.files)
        else
          requests == old(requests) + [Request(Content(t, s, k), prompt, model)]
          && (reply.Done? && written ==>
                r == Ok(reply.text) && disk.files == old(disk.files)[SummaryPath(day) := SavedHeader(day, now, clock) + reply.text])
          && (reply.Raised? || !written ==> r.Failure? && disk.files == old(disk.files))
    {
      var day := DayName(date, now);
      var t := ReadOr(disk.files, TranscriptsPath(day));
      var s := ReadOr(disk.files, ScreenPath(day));
      var k := ReadOr(disk.files, KeyboardPath(day));
      if t == "" && s == "" && k == "" {
        return Ok(Sentinel);
      }
      var content := Content(t, s, k);
      requests := requests + [Request(content, prompt, model)];
      if reply.Raised? {
        return Failure(reply.message);
      }
      if !written {
        return Failure(SaveFailed);
      }
      disk.Write(SummaryPath(day), SavedHeader(day, now, clock) + reply.text);
      return Ok(reply.text);
    }

    /** `get_summary`: the saved file, or "" when there is none. */
    function GetSummary(files: map<string, string>, date: string, today: Date): (text: string)
      requires today.Valid()
      reads this
      ensures SummaryPath(DayName(date, today)) in files ==> text == files[SummaryPath(DayName(date, today))]
      ensures SummaryPath(DayName(date, today)) !in files ==> text == ""
    {
      ReadOr(files, SummaryPath(DayName(date, today)))
    }
  }
}
