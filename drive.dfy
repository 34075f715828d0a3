/** The Google Drive backup manager (src/storage/drive_manager.py). The
    Drive service is an abstract table of entries, each with an id, a name,
    at most one parent and a MIME type; the manager memoises folder lookups
    in a cache keyed by "parent/name", files each upload under the day
    folder chain, and deletes old per-type folders during cleanup. */
module Drive {
  import opened Wrappers
  import opened Strings
  import opened Helpers
  import Files
  import Config
  import PyText

  const FolderMime: string := "application/vnd.google-apps.folder"
  const OctetStream: string := "application/octet-stream"
  const DefaultFolderName: string := "Assistente IA"

  /** The settings keys, as the segments of their dotted names. */
  const EnabledKey: seq<string> := ["google_drive", "enabled"]
  const FolderNameKey: seq<string> := ["google_drive", "folder_name"]
  const BackupAudioKey: seq<string> := ["google_drive", "backup", "audio"]
  const BackupScreenshotsKey: seq<string> := ["google_drive", "backup", "screenshots"]
  const BackupTranscriptionsKey: seq<string> := ["google_drive", "backup", "transcriptions"]
  const BackupScreenAnalysisKey: seq<string> := ["google_drive", "backup", "screen_analysis"]
  const BackupSummariesKey: seq<string> := ["google_drive", "backup", "summaries"]

  /** One file or folder on the Drive. */
  datatype Entry = Entry(id: nat, name: string, parent: Option<nat>, mime: string) {
    predicate IsFolder() { mime == FolderMime }
  }

  /** What the manager and the service hold between calls: the folder
      cache, the service's entries in listing order, and the next id the
      service will issue. */
  datatype Remote = Remote(cache: map<string, nat>, table: seq<Entry>, nextId: nat) {
    /** Every id in use, stored or cached, was issued before `nextId`. */
    predicate Valid() {
      (forall i :: 0 <= i < |table| ==> table[i].id < nextId)
      && (forall k :: k in cache ==> cache[k] < nextId)
    }
  }

  /** No two entries of the table share an id. */
  predicate UniqueIds(t: seq<Entry>) {
    forall i, j :: 0 <= i < |t| && 0 <= j < |t| && t[i].id == t[j].id ==> i == j
  }

  /** The ids of some entries. */
  function Ids(s: seq<Entry>): set<nat> {
    set i | 0 <= i < |s| :: s[i].id
  }

  /** One larger than every id of the table. */
  function NextFree(t: seq<Entry>): (n: nat)
    ensures forall i :: 0 <= i < |t| ==> t[i].id < n
    decreases |t|
  {
    if |t| == 0 then 0
    else
      var rest := NextFree(t[1..]);
      assert forall i :: 1 <= i < |t| ==> t[i] == t[1..][i - 1];
      if t[0].id < rest then rest else t[0].id + 1
  }

  // ---------------------------------------------------------------------
  // The folder cache

  /** `str(parent_id)`: "None" for no parent, the decimal id otherwise. */
  function IdText(parent: Option<nat>): string {
    match parent
    case None => "None"
    case Some(p) => NatToString(p)
  }

  /** `f"{parent_id}/{folder_name}"` */
  function CacheKey(parent: Option<nat>, name: string): string {
    IdText(parent) + "/" + name
  }

  lemma IdTextShape(parent: Option<nat>)
    ensures '/' !in IdText(parent)
    ensures IdText(parent) == "None" <==> parent.None?
  {
    if parent.Some? {
      NatToStringDigits(parent.value);
      var s := IdText(parent);
      assert !IsDigit('/') && !IsDigit('N');
      assert s[0] != 'N';
    }
  }

  /** Distinct (parent, name) pairs never share a cache entry: the key
      splits at its first "/" back into the parent and the name. */
  lemma CacheKeyInjective(p1: Option<nat>, n1: string, p2: Option<nat>, n2: string)
    requires CacheKey(p1, n1) == CacheKey(p2, n2)
    ensures p1 == p2 && n1 == n2
  {
    var k := CacheKey(p1, n1);
    var a, b := IdText(p1), IdText(p2);
    IdTextShape(p1);
    IdTextShape(p2);
    assert k == a + ['/'] + n1;
    SplitFirst(a, '/', n1);
    assert k == b + ['/'] + n2;
    SplitFirst(b, '/', n2);
    assert a == Split(k, '/')[0] == b;
    assert n1 == k[|a| + 1..] == n2;
    IdTextInjective(p1, p2);
  }

  lemma IdTextInjective(p1: Option<nat>, p2: Option<nat>)
    requires IdText(p1) == IdText(p2)
    ensures p1 == p2
  {
    IdTextShape(p1);
    IdTextShape(p2);
    if p1.Some? && p2.Some? {
      NatToStringDigits(p1.value);
      NatToStringDigits(p2.value);
    }
  }

  /** The search of `_get_or_create_folder`: a folder with that name, and
      under that parent when one is given. */
  predicate Matches(e: Entry, name: string, parent: Option<nat>) {
    e.IsFolder() && e.name == name && (parent.Some? ==> e.parent == parent)
  }

  /** The position of the first search result, or -1 when there is none. */
  function FirstMatch(t: seq<Entry>, name: string, parent: Option<nat>): (i: int)
    ensures -1 <= i < |t|
    ensures i >= 0 ==> Matches(t[i], name, parent)
    ensures forall j :: 0 <= j < |t| && (i < 0 || j < i) ==> !Matches(t[j], name, parent)
    decreases |t|
  {
    if |t| == 0 then -1
    else if Matches(t[0], name, parent) then 0
    else
      var k := FirstMatch(t[1..], name, parent);
      assert forall j :: 1 <= j < |t| ==> t[j] == t[1..][j - 1];
      if k < 0 then -1 else k + 1
  }

  /** The id `_get_or_create_folder(name, parent)` returns: the cached id,
      else the first existing match, else the id of a new folder. */
  function LookupId(s: Remote, name: string, parent: Option<nat>): nat {
    var key := CacheKey(parent, name);
    if key in s.cache then s.cache[key]
    else
      var i := FirstMatch(s.table, name, parent);
      if i >= 0 then s.table[i].id else s.nextId
  }

  /** The state after `_get_or_create_folder(name, parent)`: a cache hit
      changes nothing; a miss caches the id, and creates the folder only
      when the search found none. */
  function AfterLookup(s: Remote, name: string, parent: Option<nat>): Remote {
    var key := CacheKey(parent, name);
    if key in s.cache then s
    else if FirstMatch(s.table, name, parent) >= 0 then Remote(s.cache[key := LookupId(s, name, parent)], s.table, s.nextId)
    else Remote(s.cache[key := s.nextId], s.table + [Entry(s.nextId, name, parent, FolderMime)], s.nextId + 1)
  }

  /** Every cache entry of `c1` is in `c2` with the same id. */
  predicate Extends(c2: map<string, nat>, c1: map<string, nat>) {
    forall k :: k in c1 ==> k in c2 && c2[k] == c1[k]
  }

  /** A lookup never changes a cached id, caches its own result, and keeps
      every id fresh; a created folder's id was in use nowhere. */
  lemma LookupCaches(s: Remote, name: string, parent: Option<nat>)
    requires s.Valid()
    ensures var s' := AfterLookup(s, name, parent);
      Extends(s'.cache, s.cache)
      && CacheKey(parent, name) in s'.cache && s'.cache[CacheKey(parent, name)] == LookupId(s, name, parent)
      && s'.Valid() && s.nextId <= s'.nextId && s'.table[..|s.table|] == s.table
      && LookupId(s, name, parent) < s'.nextId
    ensures s.table != AfterLookup(s, name, parent).table ==>
      LookupId(s, name, parent) !in Ids(s.table) && LookupId(s, name, parent) !in s.cache.Values
  {
    var s' := AfterLookup(s, name, parent);
    assert s'.table[..|s.table|] == s.table;
  }

  /** A second lookup of the same folder hits the cache: same id, and the
      state does not change again. */
  lemma LookupMemoised(s: Remote, name: string, parent: Option<nat>)
    requires s.Valid()
    ensures var s' := AfterLookup(s, name, parent);
      LookupId(s', name, parent) == LookupId(s, name, parent) && AfterLookup(s', name, parent) == s'
  {
    LookupCaches(s, name, parent);
  }

  // ---------------------------------------------------------------------
  // The day folder chain

  /** `date or get_today_folder()` */
  function DayName(date: string, today: Date): string
    requires today.Valid()
  {
    if date != "" then date else DayFolder(today)
  }

  /** `date[:7]` */
  function MonthOf(day: string): string {
    if |day| >= 7 then day[..7] else day
  }

  /** Today's chain passes through today's month folder. */
  lemma TodayMonth(today: Date)
    requires today.Valid()
    ensures MonthOf(DayName("", today)) == MonthFolder(today)
    ensures DayName("", today) == DayFolder(today)
  {
    DayFolderFormat(today);
  }

  /** The state after `_get_day_folder`: the root, month and day lookups
      in that order, each under the previous one's id. */
  function AfterDay(s: Remote, folderName: string, day: string): Remote {
    var s1 := AfterLookup(s, folderName, None);
    var s2 := AfterLookup(s1, MonthOf(day), Some(LookupId(s, folderName, None)));
    AfterLookup(s2, day, Some(LookupId(s1, MonthOf(day), Some(LookupId(s, folderName, None)))))
  }

  /** The id `_get_day_folder` returns. */
  function DayId(s: Remote, folderName: string, day: string): nat {
    var s1 := AfterLookup(s, folderName, None);
    var s2 := AfterLookup(s1, MonthOf(day), Some(LookupId(s, folderName, None)));
    LookupId(s2, day, Some(LookupId(s1, MonthOf(day), Some(LookupId(s, folderName, None)))))
  }

  /** The day folder as the cache resolves it: the root folder, then the
      month under it, then the day under the month. */
  function DayChain(cache: map<string, nat>, folderName: string, day: string): Option<nat> {
    var k1 := CacheKey(None, folderName);
    if k1 !in cache then None
    else
      var k2 := CacheKey(Some(cache[k1]), MonthOf(day));
      if k2 !in cache then None
      else
        var k3 := CacheKey(Some(cache[k2]), day);
        if k3 in cache then Some(cache[k3]) else None
  }

  /** Three lookups that each cache their result, the month under the
      root's id and the day under the month's, leave the whole chain in
      the cache; later lookups never change an earlier entry. */
  lemma ChainCached(s: Remote, s1: Remote, s2: Remote, s3: Remote, folderName: string, day: string, r: nat, m: nat, d: nat)
    requires Extends(s1.cache, s.cache) && Extends(s2.cache, s1.cache) && Extends(s3.cache, s2.cache)
    requires CacheKey(None, folderName) in s1.cache && s1.cache[CacheKey(None, folderName)] == r
    requires CacheKey(Some(r), MonthOf(day)) in s2.cache && s2.cache[CacheKey(Some(r), MonthOf(day))] == m
    requires CacheKey(Some(m), day) in s3.cache && s3.cache[CacheKey(Some(m), day)] == d
    ensures DayChain(s3.cache, folderName, day) == Some(d)
    ensures Extends(s3.cache, s.cache)
  {
  }

  /** After `_get_day_folder` the cache holds the whole chain root, month,
      day, and it ends at the returned id. */
  lemma DayChainResolves(s: Remote, folderName: string, day: string)
    requires s.Valid()
    ensures AfterDay(s, folderName, day).Valid()
    ensures DayChain(AfterDay(s, folderName, day).cache, folderName, day) == Some(DayId(s, folderName, day))
    ensures Extends(AfterDay(s, folderName, day).cache, s.cache)
    ensures |s.table| <= |AfterDay(s, folderName, day).table| && AfterDay(s, folderName, day).table[..|s.table|] == s.table
  {
    var r := LookupId(s, folderName, None);
    var s1 := AfterLookup(s, folderName, None);
    LookupCaches(s, folderName, None);
    var m := LookupId(s1, MonthOf(day), Some(r));
    var s2 := AfterLookup(s1, MonthOf(day), Some(r));
    LookupCaches(s1, MonthOf(day), Some(r));
    var d := LookupId(s2, day, Some(m));
    var s3 := AfterLookup(s2, day, Some(m));
    LookupCaches(s2, day, Some(m));
    ChainCached(s, s1, s2, s3, folderName, day, r, m, d);
    TablePrefix(s.table, s1.table, s2.table);
    TablePrefix(s.table, s2.table, s3.table);
  }

  /** A prefix of a prefix is a prefix. */
  lemma TablePrefix(a: seq<Entry>, b: seq<Entry>, c: seq<Entry>)
    requires |a| <= |b| <= |c| && b[..|a|] == a && c[..|b|] == b
    ensures c[..|a|] == a
  {
    assert c[..|a|] == c[..|b|][..|a|];
  }

  // ---------------------------------------------------------------------
  // Uploads

  const DriveMimes: map<string, string> := map[
    ".mp3" := "audio/mpeg", ".wav" := "audio/wav", ".jpg" := "image/jpeg",
    ".png" := "image/png", ".txt" := "text/plain", ".md" := "text/markdown"
  ]

  /** The upload MIME type: by lower-cased suffix, defaulting to
      application/octet-stream. */
  function DriveMime(fileName: string): string {
    var suffix := Lower(Files.NameSuffix(fileName));
    if suffix in DriveMimes then DriveMimes[suffix] else OctetStream
  }

  /** The extension's case does not matter. */
  lemma DriveMimeIgnoresCase(stem: string, ext: string)
    requires |stem| > 0 && |ext| > 0 && '.' !in ext
    ensures DriveMime(stem + "." + ext) == DriveMime(stem + "." + Lower(ext))
  {
    Files.NameSuffixOf(stem, ext);
    assert forall i :: 0 <= i < |ext| ==> Lower(ext)[i] != '.';
    Files.NameSuffixOf(stem, Lower(ext));
    LowerIdempotent(ext);
    assert Lower("." + ext) == "." + Lower(ext);
    assert Lower("." + Lower(ext)) == "." + Lower(Lower(ext));
  }

  /** An upper-case ".MP3" is still audio/mpeg. */
  lemma DriveMimeExample(stem: string)
    requires |stem| > 0
    ensures DriveMime(stem + ".MP3") == "audio/mpeg"
  {
    Files.NameSuffixOf(stem, "MP3");
    assert stem + ".MP3" == stem + "." + "MP3";
    var l := Lower(".MP3");
    assert l[0] == '.' && l[1] == 'm' && l[2] == 'p' && l[3] == '3';
    assert l == ".mp3";
    assert ".mp3" in DriveMimes && DriveMimes[".mp3"] == "audio/mpeg";
  }

  /** The state after the optional subfolder step, from the state `s1`
      once the day folder `d` is known: the subfolder is looked up under
      the day only when one is named. */
  function AfterSub(s1: Remote, d: nat, subfolder: string): Remote {
    if subfolder == "" then s1 else AfterLookup(s1, subfolder, Some(d))
  }

  /** The folder the file goes into, given the day folder `d`. */
  function SubId(s1: Remote, d: nat, subfolder: string): nat {
    if subfolder == "" then d else LookupId(s1, subfolder, Some(d))
  }

  /** The state once the destination folder is known: the day folder
      chain, then the subfolder. */
  function AfterDestination(s: Remote, folderName: string, day: string, subfolder: string): Remote {
    AfterSub(AfterDay(s, folderName, day), DayId(s, folderName, day), subfolder)
  }

  /** The folder the file goes into. */
  function DestinationId(s: Remote, folderName: string, day: string, subfolder: string): nat {
    SubId(AfterDay(s, folderName, day), DayId(s, folderName, day), subfolder)
  }

  /** The destination as the cache resolves it. */
  function Destination(cache: map<string, nat>, folderName: string, day: string, subfolder: string): Option<nat> {
    match DayChain(cache, folderName, day)
    case None => None
    case Some(d) =>
      if subfolder == "" then Some(d)
      else if CacheKey(Some(d), subfolder) in cache then Some(cache[CacheKey(Some(d), subfolder)])
      else None
  }

  /** The final create under `parent`, unless it raises. */
  function Placed(s2: Remote, file: Files.FilePath, parent: nat, fails: bool): Remote {
    if fails then s2
    else Remote(s2.cache, s2.table + [Entry(s2.nextId, file.name, Some(parent), DriveMime(file.name))], s2.nextId + 1)
  }

  /** The create keeps every id fresh. */
  lemma PlacedValid(s2: Remote, file: Files.FilePath, parent: nat)
    requires s2.Valid()
    ensures Placed(s2, file, parent, false).Valid()
  {
    var t := Placed(s2, file, parent, false).table;
    assert forall i :: 0 <= i < |s2.table| ==> t[i] == s2.table[i];
  }

  /** The state after an upload that got past the guards; when the final
      create raises, the folders found or created on the way stay. */
  function AfterUpload(s: Remote, folderName: string, file: Files.FilePath, day: string, subfolder: string, fails: bool): Remote {
    Placed(AfterDestination(s, folderName, day, subfolder), file, DestinationId(s, folderName, day, subfolder), fails)
  }

  /** The id an upload that got past the guards returns. */
  function UploadId(s: Remote, folderName: string, file: Files.FilePath, day: string, subfolder: string, fails: bool): Option<nat> {
    if fails then None else Some(AfterDestination(s, folderName, day, subfolder).nextId)
  }

  /** From a state that extends `s` and resolves the day folder `d`, the
      subfolder step keeps ids fresh, only adds to the cache and the
      table, and leaves the cache resolving the destination. */
  lemma SubfolderResolves(s: Remote, s1: Remote, folderName: string, day: string, subfolder: string, d: nat)
    requires s.Valid() && s1.Valid() && Extends(s1.cache, s.cache)
    requires |s.table| <= |s1.table| && s1.table[..|s.table|] == s.table
    requires DayChain(s1.cache, folderName, day) == Some(d)
    ensures var s2 := AfterSub(s1, d, subfolder);
      s2.Valid() && Extends(s2.cache, s.cache) && |s.table| <= |s2.table| && s2.table[..|s.table|] == s.table
      && Destination(s2.cache, folderName, day, subfolder) == Some(SubId(s1, d, subfolder))
  {
    if subfolder != "" {
      LookupCaches(s1, subfolder, Some(d));
      var s2 := AfterLookup(s1, subfolder, Some(d));
      assert s2.table[..|s.table|] == s2.table[..|s1.table|][..|s.table|];
    }
  }

  /** Finding the destination keeps ids fresh, only adds to the cache and
      the table, and leaves the cache resolving the day and subfolder to
      the destination. */
  lemma DestinationResolves(s: Remote, folderName: string, day: string, subfolder: string)
    requires s.Valid()
    ensures var s2 := AfterDestination(s, folderName, day, subfolder);
      s2.Valid() && Extends(s2.cache, s.cache) && |s.table| <= |s2.table| && s2.table[..|s.table|] == s.table
      && Destination(s2.cache, folderName, day, subfolder) == Some(DestinationId(s, folderName, day, subfolder))
  {
    DayChainResolves(s, folderName, day);
    SubfolderResolves(s, AfterDay(s, folderName, day), folderName, day, subfolder, DayId(s, folderName, day));
  }

  /** The create after the folders adds one entry with an id used nowhere
      before, under the folder the cache resolves. */
  lemma FileAppended(s: Remote, s2: Remote, file: Files.FilePath, parent: nat, folderName: string, day: string, subfolder: string)
    requires s.Valid() && s2.Valid() && Extends(s2.cache, s.cache)
    requires |s.table| <= |s2.table| && s2.table[..|s.table|] == s.table
    requires Destination(s2.cache, folderName, day, subfolder) == Some(parent)
    ensures var s' := Placed(s2, file, parent, false);
      s'.Valid() && |s'.table| > |s.table| && s'.table[..|s.table|] == s.table
      && s'.table[|s'.table| - 1] == Entry(s2.nextId, file.name, Destination(s'.cache, folderName, day, subfolder), DriveMime(file.name))
      && s2.nextId !in Ids(s.table) && s2.nextId !in s.cache.Values
  {
    var s' := Placed(s2, file, parent, false);
    assert s'.table[..|s.table|] == s2.table[..|s.table|];
    forall i | 0 <= i < |s.table| ensures s.table[i].id < s2.nextId {
      assert s.table[i] == s2.table[i];
    }
    forall k | k in s.cache ensures s.cache[k] < s2.nextId {
      assert s2.cache[k] == s.cache[k];
    }
  }

  /** A successful upload adds exactly one new entry after the folders: the
      file, under its own name and MIME type, inside the folder the cache
      now resolves for that day and subfolder, with an id used nowhere
      before. */
  lemma UploadPlacement(s: Remote, folderName: string, file: Files.FilePath, day: string, subfolder: string)
    requires s.Valid()
    ensures var s' := AfterUpload(s, folderName, file, day, subfolder, false);
      var id := UploadId(s, folderName, file, day, subfolder, false);
      id.Some? && s'.Valid() && |s'.table| > |s.table| && s'.table[..|s.table|] == s.table
      && s'.table[|s'.table| - 1] == Entry(id.value, file.name, Destination(s'.cache, folderName, day, subfolder), DriveMime(file.name))
      && id.value !in Ids(s.table) && id.value !in s.cache.Values
  {
    DestinationResolves(s, folderName, day, subfolder);
    FileAppended(s, AfterDestination(s, folderName, day, subfolder), file, DestinationId(s, folderName, day, subfolder), folderName, day, subfolder);
  }

  // ---------------------------------------------------------------------
  // Cleanup

  /** The folders whose parent is `p`, in listing order. */
  function Children(t: seq<Entry>, p: nat): (r: seq<Entry>)
    ensures forall e :: e in r <==> e in t && e.IsFolder() && e.parent == Some(p)
    decreases |t|
  {
    if |t| == 0 then []
    else
      var last := t[|t| - 1];
      assert t == t[..|t| - 1] + [last];
      Children(t[..|t| - 1], p) + (if last.IsFolder() && last.parent == Some(p) then [last] else [])
  }

  /** The entries named `name` whose parent is `p`, folders or not. */
  function NamedChildren(t: seq<Entry>, p: nat, name: string): (r: seq<Entry>)
    ensures forall e :: e in r <==> e in t && e.parent == Some(p) && e.name == name
    decreases |t|
  {
    if |t| == 0 then []
    else
      var last := t[|t| - 1];
      assert t == t[..|t| - 1] + [last];
      NamedChildren(t[..|t| - 1], p, name) + (if last.parent == Some(p) && last.name == name then [last] else [])
  }

  /** The table without the entries whose ids are given, order kept. */
  function Without(t: seq<Entry>, ids: set<nat>): (r: seq<Entry>)
    ensures forall e :: e in r <==> e in t && e.id !in ids
    ensures |r| <= |t|
    decreases |t|
  {
    if |t| == 0 then []
    else
      assert t == [t[0]] + t[1..];
      (if t[0].id in ids then [] else [t[0]]) + Without(t[1..], ids)
  }

  /** Deleting in two rounds is deleting the union. */
  lemma {:induction false} WithoutTwice(t: seq<Entry>, a: set<nat>, b: set<nat>)
    ensures Without(Without(t, a), b) == Without(t, a + b)
    decreases |t|
  {
    if |t| > 0 {
      WithoutTwice(t[1..], a, b);
      if t[0].id !in a {
        var w := Without(t, a);
        assert w == [t[0]] + Without(t[1..], a);
        assert w[0] == t[0] && w[1..] == Without(t[1..], a);
        assert Without(w, b) == (if t[0].id in b then [] else [t[0]]) + Without(w[1..], b);
        assert Without(t, a + b) == (if t[0].id in b then [] else [t[0]]) + Without(t[1..], a + b);
      } else {
        assert Without(t, a) == Without(t[1..], a);
        assert Without(t, a + b) == Without(t[1..], a + b);
      }
    }
  }

  lemma IdsConcat(a: seq<Entry>, b: seq<Entry>)
    ensures Ids(a + b) == Ids(a) + Ids(b)
  {
    forall x | x in Ids(a + b) ensures x in Ids(a) + Ids(b) {
      var i :| 0 <= i < |a + b| && (a + b)[i].id == x;
      if i >= |a| { assert b[i - |a|].id == x; }
    }
    forall x | x in Ids(a) + Ids(b) ensures x in Ids(a + b) {
      if x in Ids(a) {
        var i :| 0 <= i < |a| && a[i].id == x;
        assert (a + b)[i].id == x;
      } else {
        var i :| 0 <= i < |b| && b[i].id == x;
        assert (a + b)[|a| + i].id == x;
      }
    }
  }

  /** Deleting the entries of `before`, then those of `here`, is deleting
      the entries of both. */
  lemma WithoutMore(t: seq<Entry>, before: seq<Entry>, here: seq<Entry>)
    ensures Without(Without(t, Ids(before)), Ids(here)) == Without(t, Ids(before + here))
  {
    WithoutTwice(t, Ids(before), Ids(here));
    IdsConcat(before, here);
  }

  /** One more deletion extends the deleted prefix by one entry. */
  lemma WithoutOne(t: seq<Entry>, es: seq<Entry>, k: nat)
    requires k < |es|
    ensures Without(Without(t, Ids(es[..k])), {es[k].id}) == Without(t, Ids(es[..k + 1]))
  {
    assert es[..k + 1] == es[..k] + [es[k]];
    assert Ids([es[k]]) == {es[k].id};
    WithoutMore(t, es[..k], [es[k]]);
  }

  /** What one day folder contributes: its `type` entries, when the day's
      name sorts strictly before the cut-off. */
  function DaySweep(t: seq<Entry>, day: Entry, folderType: string, cutoff: string): seq<Entry> {
    if LexLess(day.name, cutoff) then NamedChildren(t, day.id, folderType) else []
  }

  /** What the day folders of one month contribute, in listing order. */
  function MonthSweep(t: seq<Entry>, days: seq<Entry>, folderType: string, cutoff: string): seq<Entry>
    decreases |days|
  {
    if |days| == 0 then []
    else MonthSweep(t, days[..|days| - 1], folderType, cutoff) + DaySweep(t, days[|days| - 1], folderType, cutoff)
  }

  /** What the month folders contribute, in listing order. */
  function RootSweep(t: seq<Entry>, months: seq<Entry>, folderType: string, cutoff: string): seq<Entry>
    decreases |months|
  {
    if |months| == 0 then []
    else
      var m := months[|months| - 1];
      RootSweep(t, months[..|months| - 1], folderType, cutoff) + MonthSweep(t, Children(t, m.id), folderType, cutoff)
  }

  lemma MonthSweepStep(t: seq<Entry>, days: seq<Entry>, j: nat, folderType: string, cutoff: string)
    requires j < |days|
    ensures MonthSweep(t, days[..j + 1], folderType, cutoff) == MonthSweep(t, days[..j], folderType, cutoff) + DaySweep(t, days[j], folderType, cutoff)
  {
    assert days[..j + 1][..j] == days[..j];
  }

  lemma RootSweepStep(t: seq<Entry>, months: seq<Entry>, i: nat, folderType: string, cutoff: string)
    requires i < |months|
    ensures RootSweep(t, months[..i + 1], folderType, cutoff) == RootSweep(t, months[..i], folderType, cutoff) + MonthSweep(t, Children(t, months[i].id), folderType, cutoff)
  {
    assert months[..i + 1][..i] == months[..i];
  }

  /** Everything `_cleanup_folder_type` deletes under the root folder, in
      the order it deletes them. */
  function Doomed(t: seq<Entry>, root: nat, folderType: string, cutoff: string): seq<Entry> {
    RootSweep(t, Children(t, root), folderType, cutoff)
  }

  /** The day folder `d` contributes the entry `e`. */
  predicate SweptFrom(t: seq<Entry>, d: Entry, folderType: string, cutoff: string, e: Entry) {
    LexLess(d.name, cutoff) && e in NamedChildren(t, d.id, folderType)
  }

  lemma {:induction false} MonthSweepIff(t: seq<Entry>, days: seq<Entry>, folderType: string, cutoff: string, e: Entry)
    ensures e in MonthSweep(t, days, folderType, cutoff) <==> exists d :: d in days && SweptFrom(t, d, folderType, cutoff, e)
    decreases |days|
  {
    if |days| > 0 {
      var init, last := days[..|days| - 1], days[|days| - 1];
      assert days == init + [last];
      MonthSweepIff(t, init, folderType, cutoff, e);
      assert e in DaySweep(t, last, folderType, cutoff) <==> SweptFrom(t, last, folderType, cutoff, e);
      if exists d :: d in days && SweptFrom(t, d, folderType, cutoff, e) {
        var d :| d in days && SweptFrom(t, d, folderType, cutoff, e);
        assert d == last || d in init;
      }
    }
  }

  lemma {:induction false} RootSweepIff(t: seq<Entry>, months: seq<Entry>, folderType: string, cutoff: string, e: Entry)
    ensures e in RootSweep(t, months, folderType, cutoff) <==>
      exists m :: m in months && e in MonthSweep(t, Children(t, m.id), folderType, cutoff)
    decreases |months|
  {
    if |months| > 0 {
      var init, last := months[..|months| - 1], months[|months| - 1];
      assert months == init + [last];
      RootSweepIff(t, init, folderType, cutoff, e);
      if e in RootSweep(t, months, folderType, cutoff) {
        if e !in RootSweep(t, init, folderType, cutoff) {
          assert last in months && e in MonthSweep(t, Children(t, last.id), folderType, cutoff);
        } else {
          var m :| m in init && e in MonthSweep(t, Children(t, m.id), folderType, cutoff);
          assert m in months;
        }
      }
      if exists m :: m in months && e in MonthSweep(t, Children(t, m.id), folderType, cutoff) {
        var m :| m in months && e in MonthSweep(t, Children(t, m.id), folderType, cutoff);
        if m != last {
          assert m in init;
        }
      }
    }
  }

  /** The entries cleanup deletes under `root`: `type` entries sitting
      directly in a day folder that sorts before the cut-off, inside a
      month folder of the root. */
  predicate Expired(t: seq<Entry>, root: nat, folderType: string, cutoff: string, e: Entry) {
    e in t && e.name == folderType
    && exists m, d :: m in Children(t, root) && d in Children(t, m.id) && LexLess(d.name, cutoff) && e.parent == Some(d.id)
  }

  lemma DoomedExpired(t: seq<Entry>, root: nat, folderType: string, cutoff: string, e: Entry)
    requires e in Doomed(t, root, folderType, cutoff)
    ensures Expired(t, root, folderType, cutoff, e)
  {
    RootSweepIff(t, Children(t, root), folderType, cutoff, e);
    var m :| m in Children(t, root) && e in MonthSweep(t, Children(t, m.id), folderType, cutoff);
    MonthSweepIff(t, Children(t, m.id), folderType, cutoff, e);
    var d :| d in Children(t, m.id) && SweptFrom(t, d, folderType, cutoff, e);
    assert m in Children(t, root) && d in Children(t, m.id) && LexLess(d.name, cutoff) && e.parent == Some(d.id);
  }

  lemma ExpiredDoomed(t: seq<Entry>, root: nat, folderType: string, cutoff: string, e: Entry)
    requires Expired(t, root, folderType, cutoff, e)
    ensures e in Doomed(t, root, folderType, cutoff)
  {
    var m, d :| m in Children(t, root) && d in Children(t, m.id) && LexLess(d.name, cutoff) && e.parent == Some(d.id);
    MonthSweepIff(t, Children(t, m.id), folderType, cutoff, e);
    assert SweptFrom(t, d, folderType, cutoff, e);
    RootSweepIff(t, Children(t, root), folderType, cutoff, e);
  }

  /** Cleanup deletes exactly the `type` entries that sit directly in a day
      folder whose name sorts strictly before the cut-off, the day folder
      being a folder of a month folder of the root. */
  lemma DoomedIff(t: seq<Entry>, root: nat, folderType: string, cutoff: string, e: Entry)
    ensures e in Doomed(t, root, folderType, cutoff) <==> Expired(t, root, folderType, cutoff, e)
  {
    if e in Doomed(t, root, folderType, cutoff) {
      DoomedExpired(t, root, folderType, cutoff, e);
    }
    if Expired(t, root, folderType, cutoff, e) {
      ExpiredDoomed(t, root, folderType, cutoff, e);
    }
  }

  /** With day folders named by date, a day's `type` folder is deleted
      exactly when the day is before the cut-off date. */
  lemma DoomedByDate(t: seq<Entry>, root: nat, folderType: string, m: Entry, d: Entry, date: Date, cutoff: Date, e: Entry)
    requires UniqueIds(t) && date.Valid() && cutoff.Valid()
    requires m in Children(t, root) && d in Children(t, m.id) && d.name == DayFolder(date)
    requires e in t && e.name == folderType && e.parent == Some(d.id)
    ensures e in Doomed(t, root, folderType, DayFolder(cutoff)) <==> DateBefore(date, cutoff)
  {
    DoomedIff(t, root, folderType, DayFolder(cutoff), e);
    DayFolderOrder(date, cutoff);
    if e in Doomed(t, root, folderType, DayFolder(cutoff)) {
      var m', d' :| m' in Children(t, root) && d' in Children(t, m'.id) && LexLess(d'.name, DayFolder(cutoff)) && e.parent == Some(d'.id);
      var i :| 0 <= i < |t| && t[i] == d;
      var j :| 0 <= j < |t| && t[j] == d';
      assert t[i].id == t[j].id;
    } else {
      assert !LexLess(d.name, DayFolder(cutoff));
    }
  }

  /** The state after `_cleanup_folder_type`: the root lookup, then the
      deletions, every listing being of the table as the sweep began. */
  function AfterCleanup(s: Remote, folderName: string, folderType: string, cutoff: string): Remote {
    var s1 := AfterLookup(s, folderName, None);
    var doomed := Doomed(s1.table, LookupId(s, folderName, None), folderType, cutoff);
    Remote(s1.cache, Without(s1.table, Ids(doomed)), s1.nextId)
  }

  /** Cleanup keeps every id fresh, only ever removes entries, and keeps
      each entry it does not delete. */
  lemma CleanupKeepsValid(s: Remote, folderName: string, folderType: string, cutoff: string)
    requires s.Valid()
    ensures AfterCleanup(s, folderName, folderType, cutoff).Valid()
    ensures forall e :: e in AfterCleanup(s, folderName, folderType, cutoff).table ==> e in AfterLookup(s, folderName, None).table
  {
    LookupCaches(s, folderName, None);
    var s1 := AfterLookup(s, folderName, None);
    var s2 := AfterCleanup(s, folderName, folderType, cutoff);
    forall i | 0 <= i < |s2.table| ensures s2.table[i].id < s2.nextId {
      assert s2.table[i] in s1.table;
    }
  }

  /** The settings `__init__` reads, each with its default. */
  datatype Settings = Settings(
    enabled: Config.Value, folderName: Config.Value,
    backupAudio: Config.Value, backupScreenshots: Config.Value, backupTranscriptions: Config.Value,
    backupScreenAnalysis: Config.Value, backupSummaries: Config.Value)

  function ReadSettings(config: Config.Value): Settings {
    Settings(
      Config.Setting(config, EnabledKey, Config.Bool(false)),
      Config.Setting(config, FolderNameKey, Config.Str(DefaultFolderName)),
      Config.Setting(config, BackupAudioKey, Config.Bool(true)),
      Config.Setting(config, BackupScreenshotsKey, Config.Bool(false)),
      Config.Setting(config, BackupTranscriptionsKey, Config.Bool(true)),
      Config.Setting(config, BackupScreenAnalysisKey, Config.Bool(true)),
      Config.Setting(config, BackupSummariesKey, Config.Bool(true)))
  }

  /** With no configuration at all the manager is off, audio, transcripts,
      screen analyses and summaries are backed up, screenshots are not,
      and the folder is "Assistente IA". */
  lemma DefaultSettings()
    ensures ReadSettings(Config.Dict(map[])) == Settings(Config.Bool(false), Config.Str(DefaultFolderName),
      Config.Bool(true), Config.Bool(false), Config.Bool(true), Config.Bool(true), Config.Bool(true))
  {
  }

  /** The manager. `enabled` is settled once authentication has run. */
  class DriveManager {
    const settings: Settings
    const enabled: bool
    const hasService: bool
    const folderName: string
    var cache: map<string, nat>
    var table: seq<Entry>
    var nextId: nat

    function State(): Remote
      reads this
    {
      Remote(cache, table, nextId)
    }

    predicate Valid()
      reads this
    {
      State().Valid()
    }

    /** `__init__`: the settings, then authentication when enabled; a
        failed authentication leaves the manager disabled and without a
        service. */
    constructor (config: Config.Value, authenticated: bool, remote: seq<Entry>)
      ensures settings == ReadSettings(config)
      ensures enabled == (Config.Truthy(settings.enabled) && authenticated) && hasService == enabled
      ensures PyText.Render(settings.folderName).Some? ==> folderName == PyText.Render(settings.folderName).value
      ensures settings.folderName.Str? ==> folderName == settings.folderName.s
      ensures cache == map[] && table == remote && Valid()
    {
      var st := ReadSettings(config);
      settings := st;
      enabled := Config.Truthy(st.enabled) && authenticated;
      hasService := Config.Truthy(st.enabled) && authenticated;
      folderName := match PyText.Render(st.folderName) case Some(text) => text case None => DefaultFolderName;
      cache := map[];
      table := remote;
      nextId := NextFree(remote);
    }

    /** `_get_or_create_folder` */
    method GetOrCreateFolder(name: string, parent: Option<nat>) returns (id: nat)
      requires Valid()
      modifies this
      ensures id == LookupId(old(State()), name, parent)
      ensures State() == AfterLookup(old(State()), name, parent)
      ensures Valid()
    {
      LookupCaches(State(), name, parent);
      var key := CacheKey(parent, name);
      if key in cache {
        return cache[key];
      }
      var i := FirstMatch(table, name, parent);
      if i >= 0 {
        id := table[i].id;
      } else {
        id := nextId;
        table := table + [Entry(id, name, parent, FolderMime)];
        nextId := nextId + 1;
      }
      cache := cache[key := id];
    }

    /** `_get_day_folder` */
    method GetDayFolder(date: string, today: Date) returns (dayId: nat)
      requires today.Valid() && Valid()
      modifies this
      ensures dayId == DayId(old(State()), folderName, DayName(date, today))
      ensures State() == AfterDay(old(State()), folderName, DayName(date, today))
      ensures Valid()
    {
      var day := DayName(date, today);
      var month := MonthOf(day);
      var rootId := GetOrCreateFolder(folderName, None);
      var monthId := GetOrCreateFolder(month, Some(rootId));
      dayId := GetOrCreateFolder(day, Some(monthId));
    }

    /** What `upload_file` does: nothing when disabled, without a service
        or when the local file is missing; otherwise the folder chain and
        the upload. */
    predicate Uploaded(s0: Remote, s1: Remote, file: Files.FilePath, localFiles: map<string, string>,
                       subfolder: string, date: string, today: Date, fails: bool, r: Option<nat>)
      requires today.Valid()
      reads this
    {
      if !enabled || !hasService || file.Full() !in localFiles then r == None && s1 == s0
      else
        s1 == AfterUpload(s0, folderName, file, DayName(date, today), subfolder, fails)
        && r == UploadId(s0, folderName, file, DayName(date, today), subfolder, fails)
    }

    /** `upload_file`; `fails` says whether the service's create call
        raises, which the method turns into `None`. */
    method UploadFile(file: Files.FilePath, localFiles: map<string, string>, subfolder: string, date: string,
                      today: Date, fails: bool) returns (r: Option<nat>)
      requires today.Valid() && Valid()
      modifies this
      ensures Uploaded(old(State()), State(), file, localFiles, subfolder, date, today, fails, r)
      ensures Valid()
    {
      if !enabled || !hasService {
        return None;
      }
      if file.Full() !in localFiles {
        return None;
      }
      var dayFolder := GetDayFolder(date, today);
      ghost var s1 := State();
      var parentId := dayFolder;
      if subfolder != "" {
        parentId := GetOrCreateFolder(subfolder, Some(dayFolder));
      }
      assert State() == AfterSub(s1, dayFolder, subfolder) && parentId == SubId(s1, dayFolder, subfolder);
      if fails {
        return None;
      }
      PlacedValid(State(), file, parentId);
      var id := nextId;
      table := table + [Entry(id, file.name, Some(parentId), DriveMime(file.name))];
      nextId := nextId + 1;
      r := Some(id);
    }

    /** `upload_audio`: into the day's "audio" subfolder. */
    method UploadAudio(file: Files.FilePath, localFiles: map<string, string>, today: Date, fails: bool) returns (r: Option<nat>)
      requires today.Valid() && Valid()
      modifies this
      ensures !Config.Truthy(settings.backupAudio) ==> r == None && State() == old(State())
      ensures Config.Truthy(settings.backupAudio) ==> Uploaded(old(State()), State(), file, localFiles, "audio", "", today, fails, r)
      ensures Valid()
    {
      if !Config.Truthy(settings.backupAudio) {
        return None;
      }
      r := UploadFile(file, localFiles, "audio", "", today, fails);
    }

    /** `upload_transcription`: directly into the day folder. */
    method UploadTranscription(file: Files.FilePath, localFiles: map<string, string>, today: Date, fails: bool) returns (r: Option<nat>)
      requires today.Valid() && Valid()
      modifies this
      ensures !Config.Truthy(settings.backupTranscriptions) ==> r == None && State() == old(State())
      ensures Config.Truthy(settings.backupTranscriptions) ==> Uploaded(old(State()), State(), file, localFiles, "", "", today, fails, r)
      ensures Valid()
    {
      if !Config.Truthy(settings.backupTranscriptions) {
        return None;
      }
      r := UploadFile(file, localFiles, "", "", today, fails);
    }

    /** `upload_screen_analysis`: directly into the day folder. */
    method UploadScreenAnalysis(file: Files.FilePath, localFiles: map<string, string>, today: Date, fails: bool) returns (r: Option<nat>)
      requires today.Valid() && Valid()
      modifies this
      ensures !Config.Truthy(settings.backupScreenAnalysis) ==> r == None && State() == old(State())
      ensures Config.Truthy(settings.backupScreenAnalysis) ==> Uploaded(old(State()), State(), file, localFiles, "", "", today, fails, r)
      ensures Valid()
    {
      if !Config.Truthy(settings.backupScreenAnalysis) {
        return None;
      }
      r := UploadFile(file, localFiles, "", "", today, fails);
    }

    /** `upload_summary`: directly into the day folder. */
    method UploadSummary(file: Files.FilePath, localFiles: map<string, string>, today: Date, fails: bool) returns (r: Option<nat>)
      requires today.Valid() && Valid()
      modifies this
      ensures !Config.Truthy(settings.backupSummaries) ==> r == None && State() == old(State())
      ensures Config.Truthy(settings.backupSummaries) ==> Uploaded(old(State()), State(), file, localFiles, "", "", today, fails, r)
      ensures Valid()
    {
      if !Config.Truthy(settings.backupSummaries) {
        return None;
      }
      r := UploadFile(file, localFiles, "", "", today, fails);
    }

    /** `files().delete(fileId=id)` */
    method Delete(id: nat)
      modifies this
      ensures table == Without(old(table), {id}) && cache == old(cache) && nextId == old(nextId)
    {
      table := Without(table, {id});
    }

    /** The innermost loop: delete every `type` entry of one day folder. */
    method SweepDay(snap: seq<Entry>, day: Entry, folderType: string, cutoff: string) returns (count: nat)
      modifies this
      ensures table == Without(old(table), Ids(DaySweep(snap, day, folderType, cutoff)))
      ensures count == |DaySweep(snap, day, folderType, cutoff)|
      ensures cache == old(cache) && nextId == old(nextId)
    {
      count := 0;
      if !LexLess(day.name, cutoff) {
        assert DaySweep(snap, day, folderType, cutoff) == [];
        WithoutNothing(table);
        return;
      }
      var subfolders := NamedChildren(snap, day.id, folderType);
      ghost var t0 := table;
      WithoutNothing(t0);
      assert subfolders[..0] == [];
      while count < |subfolders|
        invariant count <= |subfolders|
        invariant table == Without(t0, Ids(subfolders[..count]))
        invariant cache == old(cache) && nextId == old(nextId)
      {
        Delete(subfolders[count].id);
        WithoutOne(t0, subfolders, count);
        count := count + 1;
      }
      assert subfolders[..count] == subfolders;
    }

    /** The middle loop: the day folders of one month. */
    method SweepMonth(snap: seq<Entry>, days: seq<Entry>, folderType: string, cutoff: string) returns (count: nat)
      modifies this
      ensures table == Without(old(table), Ids(MonthSweep(snap, days, folderType, cutoff)))
      ensures count == |MonthSweep(snap, days, folderType, cutoff)|
      ensures cache == old(cache) && nextId == old(nextId)
    {
      count := 0;
      ghost var t0 := table;
      assert Without(t0, Ids(MonthSweep(snap, days[..0], folderType, cutoff))) == t0 by { WithoutNothing(t0); }
      var j := 0;
      while j < |days|
        invariant j <= |days|
        invariant table == Without(t0, Ids(MonthSweep(snap, days[..j], folderType, cutoff)))
        invariant count == |MonthSweep(snap, days[..j], folderType, cutoff)|
        invariant cache == old(cache) && nextId == old(nextId)
      {
        var c := SweepDay(snap, days[j], folderType, cutoff);
        ghost var before := MonthSweep(snap, days[..j], folderType, cutoff);
        ghost var here := DaySweep(snap, days[j], folderType, cutoff);
        MonthSweepStep(snap, days, j, folderType, cutoff);
        WithoutMore(t0, before, here);
        count := count + c;
        j := j + 1;
      }
      assert days[..j] == days;
    }

    /** The outer loop: the month folders of the root, every listing
        being of `snap`. */
    method SweepRoot(snap: seq<Entry>, rootId: nat, folderType: string, cutoff: string) returns (deleted: nat)
      modifies this
      ensures table == Without(old(table), Ids(Doomed(snap, rootId, folderType, cutoff)))
      ensures deleted == |Doomed(snap, rootId, folderType, cutoff)|
      ensures cache == old(cache) && nextId == old(nextId)
    {
      var months := Children(snap, rootId);
      ghost var t0 := table;
      deleted := 0;
      assert Without(t0, Ids(RootSweep(snap, months[..0], folderType, cutoff))) == t0 by { WithoutNothing(t0); }
      var i := 0;
      while i < |months|
        invariant i <= |months|
        invariant table == Without(t0, Ids(RootSweep(snap, months[..i], folderType, cutoff)))
        invariant deleted == |RootSweep(snap, months[..i], folderType, cutoff)|
        invariant cache == old(cache) && nextId == old(nextId)
      {
        var days := Children(snap, months[i].id);
        var c := SweepMonth(snap, days, folderType, cutoff);
        ghost var before := RootSweep(snap, months[..i], folderType, cutoff);
        ghost var here := MonthSweep(snap, days, folderType, cutoff);
        RootSweepStep(snap, months, i, folderType, cutoff);
        WithoutMore(t0, before, here);
        deleted := deleted + c;
        i := i + 1;
      }
      assert months[..i] == months;
    }

    /** `_cleanup_folder_type`: the root lookup, then the nested loops over
        month folders, day folders and `type` entries; the result is
        `deleted_count`. */
    method CleanupFolderType(folderType: string, cutoff: Date) returns (deleted: nat)
      requires cutoff.Valid() && Valid()
      modifies this
      ensures State() == AfterCleanup(old(State()), folderName, folderType, DayFolder(cutoff))
      ensures deleted == |Doomed(AfterLookup(old(State()), folderName, None).table,
                                 LookupId(old(State()), folderName, None), folderType, DayFolder(cutoff))|
      ensures Valid()
    {
      ghost var s := State();
      CleanupKeepsValid(s, folderName, folderType, DayFolder(cutoff));
      var cutoffText := DayFolder(cutoff);
      var rootId := GetOrCreateFolder(folderName, None);
      deleted := SweepRoot(table, rootId, folderType, cutoffText);
    }

    /** `cleanup_old_files`: nothing when disabled or without a service;
        then audio, when backed up, and screenshots, when backed up. The
        cut-off dates are today minus each retention period. */
    method CleanupOldFiles(audioCutoff: Date, screenshotsCutoff: Date)
      requires audioCutoff.Valid() && screenshotsCutoff.Valid() && Valid()
      modifies this
      ensures !enabled || !hasService ==> State() == old(State())
      ensures enabled && hasService ==>
        var s1 := if Config.Truthy(settings.backupAudio) then AfterCleanup(old(State()), folderName, "audio", DayFolder(audioCutoff)) else old(State());
        State() == (if Config.Truthy(settings.backupScreenshots) then AfterCleanup(s1, folderName, "screenshots", DayFolder(screenshotsCutoff)) else s1)
      ensures Valid()
    {
      if !enabled || !hasService {
        return;
      }
      if Config.Truthy(settings.backupAudio) {
        var _ := CleanupFolderType("audio", audioCutoff);
      }
      if Config.Truthy(settings.backupScreenshots) {
        var _ := CleanupFolderType("screenshots", screenshotsCutoff);
      }
    }
  }

  /** Deleting no ids changes nothing. */
  lemma {:induction false} WithoutNothing(t: seq<Entry>)
    ensures Without(t, {}) == t
    ensures Ids([]) == {}
    decreases |t|
  {
    if |t| > 0 {
      WithoutNothing(t[1..]);
      assert [t[0]] + t[1..] == t;
    }
  }
}
