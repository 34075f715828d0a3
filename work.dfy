/** What the three enrichment workers (audio transcription, screen
    analysis, keyboard analysis) share: the environment each processed item
    meets, the per-day log file they append to, and the tagged record
    format of those logs. */
module Work {
  import opened Wrappers
  import opened Strings
  import opened Helpers
  import Files

  /** What processing one queued item meets: the collaborator's outcome,
      the date and time when the result is saved, and whether opening and
      appending to the day's log succeeded. */
  datatype Attempt = Attempt(result: Outcome, day: Date, clock: Clock, saved: bool)

  predicate AllValid(attempts: seq<Attempt>) {
    forall i :: 0 <= i < |attempts| ==> attempts[i].day.Valid() && attempts[i].clock.Valid()
  }

  lemma AllValidPrefix(attempts: seq<Attempt>, n: nat)
    requires AllValid(attempts) && n <= |attempts|
    ensures AllValid(attempts[..n])
  {
  }

  /** A log that held `a + b` and then received `x` holds `a + (b + x)`. */
  lemma LogGrows(a: string, b: string, x: string, p: string, q: string)
    requires p == a + b && q == p + x
    ensures q == a + (b + x)
  {
  }

  /** `output_dir / get_today_folder() / file_name` */
  function DayLog(outputDir: string, day: Date, fileName: string): string
    requires day.Valid()
  {
    Files.Under(Files.Under(outputDir, DayFolder(day)), fileName)
  }

  /** Two paths `dir/x/f` and `dir/y/f` with `x`, `y` of one length are
      equal only when `x` and `y` are. */
  lemma MiddleEqual(dir: string, x: string, y: string, f: string)
    requires |x| == |y| && Files.Under(Files.Under(dir, x), f) == Files.Under(Files.Under(dir, y), f)
    ensures x == y
  {
    var p := Files.Under(Files.Under(dir, x), f);
    assert p[|dir| + 1..|dir| + 1 + |x|] == x;
  }

  /** Different days never share a log file. */
  lemma DayLogInjective(outputDir: string, d1: Date, d2: Date, fileName: string)
    requires d1.Valid() && d2.Valid() && DayLog(outputDir, d1, fileName) == DayLog(outputDir, d2, fileName)
    ensures d1 == d2
  {
    DayFolderFormat(d1);
    DayFolderFormat(d2);
    MiddleEqual(outputDir, DayFolder(d1), DayFolder(d2), fileName);
  }

  /** `f"\n[{tag}]\n{text}\n"`: one log record. */
  function Tagged(tag: string, text: string): string {
    "\n[" + tag + "]\n" + text + "\n"
  }

  /** The tag of a record: what lies between its opening "\n[" and the
      first "]". */
  function RecordTag(r: string): string {
    if |r| >= 2 then Split(r[2..], ']')[0] else ""
  }

  /** The text of a record: what follows the tag line, without the final
      newline. */
  function RecordText(r: string): string {
    var start := 2 + |RecordTag(r)| + 2;
    if start <= |r| - 1 then r[start..|r| - 1] else ""
  }

  /** A record reads back to its tag and its text whenever the tag has no
      "]", whatever the text holds. */
  lemma TaggedRoundTrip(tag: string, text: string)
    requires ']' !in tag
    ensures RecordTag(Tagged(tag, text)) == tag
    ensures RecordText(Tagged(tag, text)) == text
  {
    var r := Tagged(tag, text);
    var rest := "\n" + text + "\n";
    assert r[2..] == tag + [']'] + rest;
    SplitFirst(tag, ']', rest);
    assert r[2 + |tag| + 2..|r| - 1] == text;
  }

  /** The tags the workers use for files: their stems. */
  function Stems(items: seq<Files.FilePath>): (tags: seq<string>)
    ensures |tags| == |items|
    ensures forall i :: 0 <= i < |items| ==> tags[i] == items[i].Stem()
  {
    seq(|items|, i requires 0 <= i < |items| => items[i].Stem())
  }

  lemma StemsPrefix(items: seq<Files.FilePath>, n: nat)
    requires n <= |items|
    ensures Stems(items)[..n] == Stems(items[..n])
  {
  }

  /** What one processed item adds to the log of `day`: its record when
      the call succeeded and the record was saved on that day. */
  function Contribution(tag: string, a: Attempt, day: Date): string {
    if a.result.Done? && a.saved && a.day == day then Tagged(tag, a.result.text) else ""
  }

  /** What a run of items adds to the log of `day`, in processing order. */
  function DayRecords(tags: seq<string>, attempts: seq<Attempt>, day: Date): string
    requires |tags| == |attempts|
    decreases |tags|
  {
    if |tags| == 0 then ""
    else
      var n := |tags| - 1;
      DayRecords(tags[..n], attempts[..n], day) + Contribution(tags[n], attempts[n], day)
  }

  lemma PrefixOfPrefix<T>(s: seq<T>, j: nat)
    requires j < |s|
    ensures s[..j + 1][..j] == s[..j] && s[..j + 1][j] == s[j]
  {
  }

  function Min(a: nat, b: nat): nat { if a <= b then a else b }
}
