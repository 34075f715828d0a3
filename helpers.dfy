/** The project's small helpers (src/utils/helpers.py): file-name
    sanitising, human-readable durations, and the zero-padded date and time
    formats that name every per-day folder and every record tag. The clock
    is not read here: date and time parts are passed in. */
module Helpers {
  import opened Strings

  // ---------------------------------------------------------------------
  // safe_filename

  /** The nine characters a file name may not contain, in the order the
      source replaces them. */
  const InvalidChars: string := "<>:\"/\\|?*"

  /** The source's loop: `filename = filename.replace(c, "_")` for each
      invalid character `c` in turn. */
  function ReplaceEach(s: string, chars: string): string
    decreases |chars|
  {
    if |chars| == 0 then s else ReplaceEach(ReplaceAll(s, [chars[0]], "_"), chars[1..])
  }

  /** `safe_filename` */
  function SafeFilename(filename: string): string {
    ReplaceEach(filename, InvalidChars)
  }

  /** Replacing one character by another is a per-character map. */
  lemma {:induction false} ReplaceOneChar(s: string, c: char, b: char)
    ensures |ReplaceAll(s, [c], [b])| == |s|
    ensures forall i :: 0 <= i < |s| ==> ReplaceAll(s, [c], [b])[i] == (if s[i] == c then b else s[i])
    decreases |s|
  {
    if |s| > 0 {
      ReplaceOneChar(s[1..], c, b);
    }
  }

  /** The loop over the invalid characters maps each character on its own. */
  lemma {:induction false} ReplaceEachChars(s: string, chars: string)
    requires '_' !in chars
    ensures |ReplaceEach(s, chars)| == |s|
    ensures forall i :: 0 <= i < |s| ==> ReplaceEach(s, chars)[i] == (if s[i] in chars then '_' else s[i])
    decreases |chars|
  {
    if |chars| > 0 {
      var t := ReplaceAll(s, [chars[0]], "_");
      ReplaceOneChar(s, chars[0], '_');
      ReplaceEachChars(t, chars[1..]);
      forall i | 0 <= i < |s|
        ensures ReplaceEach(s, chars)[i] == (if s[i] in chars then '_' else s[i])
      {
        assert s[i] in chars <==> s[i] == chars[0] || s[i] in chars[1..];
      }
    }
  }

  /** `safe_filename` keeps the length, turns each invalid character into
      `_` and leaves every other character alone. */
  lemma SafeFilenameChars(filename: string)
    ensures |SafeFilename(filename)| == |filename|
    ensures forall i :: 0 <= i < |filename| ==>
      SafeFilename(filename)[i] == (if filename[i] in InvalidChars then '_' else filename[i])
  {
    ReplaceEachChars(filename, InvalidChars);
  }

  /** Its output contains no invalid character, and sanitising twice is
      sanitising once. */
  lemma SafeFilenameClean(filename: string)
    ensures forall i :: 0 <= i < |SafeFilename(filename)| ==> SafeFilename(filename)[i] !in InvalidChars
    ensures SafeFilename(SafeFilename(filename)) == SafeFilename(filename)
  {
    ReplaceEachClean(filename, InvalidChars);
  }

  lemma ReplaceEachClean(s: string, chars: string)
    requires '_' !in chars
    ensures forall i :: 0 <= i < |ReplaceEach(s, chars)| ==> ReplaceEach(s, chars)[i] !in chars
    ensures ReplaceEach(ReplaceEach(s, chars), chars) == ReplaceEach(s, chars)
  {
    ReplaceEachChars(s, chars);
    ReplaceEachChars(ReplaceEach(s, chars), chars);
  }

  // ---------------------------------------------------------------------
  // Decimal digits

  function Pow10(k: nat): (p: nat)
    ensures p >= 1
  {
    if k == 0 then 1 else 10 * Pow10(k - 1)
  }

  function DigitChar(d: nat): char
    requires d < 10
  {
    ('0' as int + d) as char
  }

  predicate IsDigit(c: char) { '0' <= c <= '9' }

  /** `n` written with exactly `w` digits, zero-padded on the left. */
  function Pad(n: nat, w: nat): (r: string)
    requires n < Pow10(w)
    ensures |r| == w
    decreases w
  {
    if w == 0 then ""
    else
      var p := Pow10(w - 1);
      LeadingDigit(n, p);
      [DigitChar(n / p)] + Pad(n % p, w - 1)
  }

  lemma LeadingDigit(n: nat, p: nat)
    requires p >= 1 && n < 10 * p
    ensures n / p < 10
    ensures n == (n / p) * p + n % p && n % p < p
  {
  }

  /** The value of one digit character. */
  function DigitValue(c: char): nat {
    if '0' <= c then c as int - '0' as int else 0
  }

  /** The number a string of digits denotes. */
  function Value(s: string): nat
    decreases |s|
  {
    if |s| == 0 then 0 else DigitValue(s[0]) * Pow10(|s| - 1) + Value(s[1..])
  }

  lemma PadStep(n: nat, w: nat, p: nat)
    requires w > 0 && n < Pow10(w) && p == Pow10(w - 1)
    ensures n / p < 10 && n % p < p && n == (n / p) * p + n % p
    ensures Pad(n, w) == [DigitChar(n / p)] + Pad(n % p, w - 1)
    ensures DigitValue(DigitChar(n / p)) == n / p
  {
    P10(w);
    LeadingDigit(n, p);
    DigitRoundTrip(n / p);
  }

  lemma P10(w: nat)
    requires w > 0
    ensures Pow10(w) == 10 * Pow10(w - 1)
  {
  }

  lemma DigitRoundTrip(d: nat)
    requires d < 10
    ensures DigitValue(DigitChar(d)) == d && IsDigit(DigitChar(d))
  {
  }

  /** Reading a padded number back gives the number; every character is a
      digit. */
  lemma {:induction false} PadValue(n: nat, w: nat)
    requires n < Pow10(w)
    ensures Value(Pad(n, w)) == n
    ensures forall i :: 0 <= i < w ==> IsDigit(Pad(n, w)[i])
    decreases w
  {
    if w > 0 {
      var p := Pow10(w - 1);
      PadStep(n, w, p);
      var q, rem := n / p, n % p;
      PadValue(rem, w - 1);
      var r := Pad(n, w);
      assert r[1..] == Pad(rem, w - 1);
      assert Value(r) == DigitValue(r[0]) * p + Value(r[1..]);
    }
  }

  /** Two numbers padded to the same width compare as strings exactly as
      they compare as numbers (what follows decides only a tie). */
  lemma {:induction false} PadOrder(a: nat, b: nat, w: nat, x: string, y: string)
    requires a < Pow10(w) && b < Pow10(w)
    ensures LexLess(Pad(a, w) + x, Pad(b, w) + y) <==> a < b || (a == b && LexLess(x, y))
    decreases w
  {
    if w == 0 {
      assert Pad(a, w) + x == x && Pad(b, w) + y == y;
    } else {
      var p := Pow10(w - 1);
      PadStep(a, w, p);
      PadStep(b, w, p);
      var qa, ra, qb, rb := a / p, a % p, b / p, b % p;
      var s, t := Pad(a, w) + x, Pad(b, w) + y;
      assert s[0] == DigitChar(qa) && t[0] == DigitChar(qb);
      assert s[1..] == Pad(ra, w - 1) + x;
      assert t[1..] == Pad(rb, w - 1) + y;
      DigitOrder(qa, qb);
      SplitCompare(a, b, p, qa, ra, qb, rb);
      assert LexLess(s, t) == if s[0] != t[0] then s[0] < t[0] else LexLess(s[1..], t[1..]);
      if qa == qb {
        PadOrder(ra, rb, w - 1, x, y);
      }
    }
  }

  lemma DigitOrder(i: nat, j: nat)
    requires i < 10 && j < 10
    ensures DigitChar(i) < DigitChar(j) <==> i < j
    ensures DigitChar(i) == DigitChar(j) <==> i == j
  {
  }

  /** Numbers split into a leading part and a remainder below `p` compare
      by the leading part first. */
  lemma SplitCompare(a: nat, b: nat, p: nat, qa: nat, ra: nat, qb: nat, rb: nat)
    requires a == qa * p + ra && ra < p
    requires b == qb * p + rb && rb < p
    ensures qa < qb ==> a < b
    ensures qb < qa ==> b < a
    ensures qa == qb ==> (a < b <==> ra < rb) && (a == b <==> ra == rb)
  {
    if qa < qb {
      MulMono(qa + 1, qb, p);
    } else if qb < qa {
      MulMono(qb + 1, qa, p);
    }
  }

  lemma MulMono(i: nat, j: nat, p: nat)
    requires i <= j
    ensures i * p <= j * p
  {
  }

  /** Number of decimal digits of `n` (at least one). */
  function NumDigits(n: nat): (k: nat)
    ensures k >= 1 && n < Pow10(k)
  {
    if n < 10 then 1 else 1 + NumDigits(n / 10)
  }

  /** `str(n)` for a natural number. */
  function NatToString(n: nat): string {
    Pad(n, NumDigits(n))
  }

  // ---------------------------------------------------------------------
  // format_duration (whole seconds)

  function Hours(seconds: nat): nat { seconds / 3600 }
  function Minutes(seconds: nat): nat { (seconds % 3600) / 60 }
  function Secs(seconds: nat): nat { seconds % 60 }

  /** The three parts the source computes recombine to the duration, with
      minutes and seconds below sixty. */
  lemma DurationDecomposes(seconds: nat)
    ensures Hours(seconds) * 3600 + Minutes(seconds) * 60 + Secs(seconds) == seconds
    ensures Minutes(seconds) < 60 && Secs(seconds) < 60
  {
    var h, r := seconds / 3600, seconds % 3600;
    var m, s := r / 60, r % 60;
    assert r == m * 60 + s;
    assert seconds == (h * 60 + m) * 60 + s by {
      assert seconds == h * 3600 + r;
      assert h * 3600 == (h * 60) * 60;
      assert (h * 60) * 60 + m * 60 == (h * 60 + m) * 60;
    }
    ModSixty(seconds, h * 60 + m, s);
  }

  /** The remainder by sixty is the one `r` below sixty with `a == q * 60 + r`. */
  lemma ModSixty(a: nat, q: nat, r: nat)
    requires r < 60 && a == q * 60 + r
    ensures a % 60 == r
  {
    var q' := a / 60;
    assert a == q' * 60 + a % 60;
  }

  /** The list `parts` the source builds: hours, minutes, seconds, each only
      when non-zero, and seconds also when nothing else was added. */
  function DurationParts(seconds: nat): seq<string> {
    var h, m, s := Hours(seconds), Minutes(seconds), Secs(seconds);
    (if h > 0 then [NatToString(h) + "h"] else [])
    + (if m > 0 then [NatToString(m) + "m"] else [])
    + (if s > 0 || (h == 0 && m == 0) then [NatToString(s) + "s"] else [])
  }

  /** `format_duration` */
  function FormatDuration(seconds: nat): string {
    Join(DurationParts(seconds), " ")
  }

  /** How many seconds one unit letter stands for. */
  function UnitSeconds(u: char): nat {
    if u == 'h' then 3600 else if u == 'm' then 60 else if u == 's' then 1 else 0
  }

  /** The seconds one "<digits><unit>" part stands for. */
  function PartSeconds(part: string): nat {
    if |part| == 0 then 0 else Value(part[..|part| - 1]) * UnitSeconds(part[|part| - 1])
  }

  function SumParts(parts: seq<string>): nat
    decreases |parts|
  {
    if |parts| == 0 then 0 else PartSeconds(parts[0]) + SumParts(parts[1..])
  }

  /** Reads a formatted duration back: the sum over its space-separated
      parts. */
  function ParseDuration(text: string): nat {
    SumParts(Split(text, ' '))
  }

  lemma NatToStringDigits(n: nat)
    ensures Value(NatToString(n)) == n
    ensures forall i :: 0 <= i < |NatToString(n)| ==> IsDigit(NatToString(n)[i])
  {
    PadValue(n, NumDigits(n));
  }

  lemma PartRoundTrip(n: nat, u: char)
    ensures PartSeconds(NatToString(n) + [u]) == n * UnitSeconds(u)
    ensures ' ' !in NatToString(n) + [u] || u == ' '
  {
    NatToStringDigits(n);
    var t := NatToString(n) + [u];
    assert t[..|t| - 1] == NatToString(n);
  }

  lemma {:induction false} SumPartsAppend(a: seq<string>, b: seq<string>)
    ensures SumParts(a + b) == SumParts(a) + SumParts(b)
    decreases |a|
  {
    if |a| > 0 {
      assert (a + b)[1..] == a[1..] + b;
      SumPartsAppend(a[1..], b);
    } else {
      assert a + b == b;
    }
  }

  /** Fields that do not contain the separator `c`. */
  predicate NoSeparator(parts: seq<string>, c: char) {
    forall k :: 0 <= k < |parts| ==> c !in parts[k]
  }

  lemma NoSeparatorAppend(a: seq<string>, b: seq<string>, c: char)
    requires NoSeparator(a, c) && NoSeparator(b, c)
    ensures NoSeparator(a + b, c)
  {
    forall k | 0 <= k < |a + b| ensures c !in (a + b)[k] {
      if k >= |a| {
        assert (a + b)[k] == b[k - |a|];
      }
    }
  }

  /** One optional part of the formatted duration: it reads back as its
      value in seconds, and an absent part is worth zero. */
  lemma OptionalPart(n: nat, u: char, present: bool)
    requires u != ' '
    requires present || n == 0
    ensures SumParts(if present then [NatToString(n) + [u]] else []) == n * UnitSeconds(u)
    ensures NoSeparator(if present then [NatToString(n) + [u]] else [], ' ')
  {
    if present {
      PartRoundTrip(n, u);
      assert SumParts([NatToString(n) + [u]]) == PartSeconds(NatToString(n) + [u]) + SumParts([]);
    }
  }

  /** The parts add up to the duration, none holds a space, and there is
      always at least one. */
  lemma DurationPartsSum(seconds: nat)
    ensures |DurationParts(seconds)| > 0 && NoSeparator(DurationParts(seconds), ' ')
    ensures SumParts(DurationParts(seconds)) == seconds
  {
    var h, m, s := Hours(seconds), Minutes(seconds), Secs(seconds);
    var ph := if h > 0 then [NatToString(h) + "h"] else [];
    var pm := if m > 0 then [NatToString(m) + "m"] else [];
    var ps := if s > 0 || (h == 0 && m == 0) then [NatToString(s) + "s"] else [];
    assert DurationParts(seconds) == ph + pm + ps;
    OptionalPart(h, 'h', h > 0);
    OptionalPart(m, 'm', m > 0);
    OptionalPart(s, 's', s > 0 || (h == 0 && m == 0));
    NoSeparatorAppend(ph, pm, ' ');
    NoSeparatorAppend(ph + pm, ps, ' ');
    SumPartsAppend(ph + pm, ps);
    SumPartsAppend(ph, pm);
    DurationDecomposes(seconds);
  }

  /** Reading a formatted duration back gives the number of seconds. */
  lemma FormatDurationRoundTrip(seconds: nat)
    ensures ParseDuration(FormatDuration(seconds)) == seconds
  {
    DurationPartsSum(seconds);
    JoinSplit(DurationParts(seconds), ' ');
  }

  /** The zero duration is shown as "0s". */
  lemma FormatDurationZero()
    ensures FormatDuration(0) == "0s"
  {
    assert Pow10(1) == 10;
    assert NatToString(0) + "s" == "0s";
    assert DurationParts(0) == ["0s"];
  }

  /** Zero parts are left out: one hour is shown as "1h". */
  lemma FormatDurationHour()
    ensures FormatDuration(3600) == "1h"
  {
    assert Pow10(1) == 10;
    assert Hours(3600) == 1 && Minutes(3600) == 0 && Secs(3600) == 0;
    assert NatToString(1) + "h" == "1h";
    assert DurationParts(3600) == ["1h"];
  }

  /** The digits of the three parts of 1 h 30 min 45 s. */
  lemma FullDigits()
    ensures NatToString(1) == "1" && NatToString(30) == "30" && NatToString(45) == "45"
  {
    assert Pow10(1) == 10 && Pow10(2) == 100;
    assert NumDigits(30) == 2 && NumDigits(45) == 2;
    assert Pad(0, 1) == "0" && Pad(5, 1) == "5";
    assert Pad(30, 2) == "30" && Pad(45, 2) == "45";
  }

  /** With every unit non-zero, all three parts are shown, in order. */
  lemma AllParts(seconds: nat)
    requires Hours(seconds) > 0 && Minutes(seconds) > 0 && Secs(seconds) > 0
    ensures FormatDuration(seconds)
      == NatToString(Hours(seconds)) + "h " + NatToString(Minutes(seconds)) + "m " + NatToString(Secs(seconds)) + "s"
  {
    var a, b, c := NatToString(Hours(seconds)) + "h", NatToString(Minutes(seconds)) + "m", NatToString(Secs(seconds)) + "s";
    assert DurationParts(seconds) == [a, b, c];
    JoinThree(a, b, c, " ");
  }

  lemma JoinThree(a: string, b: string, c: string, sep: string)
    ensures Join([a, b, c], sep) == a + sep + b + sep + c
  {
    assert [a, b, c][1..] == [b, c] && [b, c][1..] == [c];
    assert Join([b, c], sep) == b + sep + c;
  }

  /** All three parts, separated by spaces. */
  lemma FormatDurationFull()
    ensures FormatDuration(5445) == "1h 30m 45s"
  {
    var n := 5445;
    assert Hours(n) == 1 && Minutes(n) == 30 && Secs(n) == 45;
    AllParts(n);
    FullDigits();
  }

  // ---------------------------------------------------------------------
  // Dates and times: the strftime formats of the helpers

  /** A calendar date as `datetime` holds it. */
  datatype Date = Date(year: nat, month: nat, day: nat) {
    predicate Valid() { 1 <= year <= 9999 && 1 <= month <= 12 && 1 <= day <= 31 }
  }

  /** A wall-clock time as `datetime` holds it. */
  datatype Clock = Clock(hour: nat, minute: nat, second: nat) {
    predicate Valid() { hour < 24 && minute < 60 && second < 60 }
  }

  /** Calendar order on dates. */
  predicate DateBefore(a: Date, b: Date) {
    a.year < b.year
    || (a.year == b.year && (a.month < b.month || (a.month == b.month && a.day < b.day)))
  }

  lemma Widths()
    ensures Pow10(2) == 100 && Pow10(4) == 10000
  {
  }

  /** `get_today_folder`: "%Y-%m-%d" */
  function DayFolder(d: Date): (r: string)
    requires d.Valid()
  {
    Widths();
    Pad(d.year, 4) + "-" + Pad(d.month, 2) + "-" + Pad(d.day, 2)
  }

  /** `get_month_folder`: "%Y-%m" */
  function MonthFolder(d: Date): string
    requires d.Valid()
  {
    Widths();
    Pad(d.year, 4) + "-" + Pad(d.month, 2)
  }

  /** `get_timestamp`: "%Hh%M" */
  function Timestamp(c: Clock): string
    requires c.Valid()
  {
    Widths();
    Pad(c.hour, 2) + "h" + Pad(c.minute, 2)
  }

  /** "%Hh%Mm%Ss": screenshot names and keyboard-analysis tags. */
  function FileStamp(c: Clock): string
    requires c.Valid()
  {
    Widths();
    Pad(c.hour, 2) + "h" + Pad(c.minute, 2) + "m" + Pad(c.second, 2) + "s"
  }

  /** `get_datetime_stamp`: "%Y-%m-%d_%Hh%Mm%Ss" */
  function DatetimeStamp(d: Date, c: Clock): string
    requires d.Valid() && c.Valid()
  {
    DayFolder(d) + "_" + FileStamp(c)
  }

  /** "%H:%M:%S": the keystroke-log block header. */
  function ClockStamp(c: Clock): string
    requires c.Valid()
  {
    Widths();
    Pad(c.hour, 2) + ":" + Pad(c.minute, 2) + ":" + Pad(c.second, 2)
  }

  /** "%d/%m/%Y às %H:%M": the generation line of a saved summary. */
  function GeneratedStamp(d: Date, c: Clock): string
    requires d.Valid() && c.Valid()
  {
    Widths();
    Pad(d.day, 2) + "/" + Pad(d.month, 2) + "/" + Pad(d.year, 4) + " às " + Pad(c.hour, 2) + ":" + Pad(c.minute, 2)
  }

  /** Reads "YYYY-MM-DD" back into a date. */
  function ParseDay(s: string): Date
    requires |s| == 10
  {
    Date(Value(s[..4]), Value(s[5..7]), Value(s[8..]))
  }

  /** The day folder is ten characters with dashes at 4 and 7, reads back
      to its date, and the month folder is its first seven characters. */
  lemma DayFolderFormat(d: Date)
    requires d.Valid()
    ensures |DayFolder(d)| == 10 && DayFolder(d)[4] == '-' && DayFolder(d)[7] == '-'
    ensures ParseDay(DayFolder(d)) == d
    ensures MonthFolder(d) == DayFolder(d)[..7]
  {
    Widths();
    var s := DayFolder(d);
    assert s[..4] == Pad(d.year, 4);
    assert s[5..7] == Pad(d.month, 2);
    assert s[8..] == Pad(d.day, 2);
    PadValue(d.year, 4);
    PadValue(d.month, 2);
    PadValue(d.day, 2);
  }

  /** Day folders sort as strings in calendar order, which is what the
      Drive retention cut-off relies on. */
  lemma DayFolderOrder(a: Date, b: Date)
    requires a.Valid() && b.Valid()
    ensures LexLess(DayFolder(a), DayFolder(b)) <==> DateBefore(a, b)
  {
    Widths();
    var ra := "-" + Pad(a.month, 2) + "-" + Pad(a.day, 2);
    var rb := "-" + Pad(b.month, 2) + "-" + Pad(b.day, 2);
    assert DayFolder(a) == Pad(a.year, 4) + ra;
    assert DayFolder(b) == Pad(b.year, 4) + rb;
    PadOrder(a.year, b.year, 4, ra, rb);
    MonthDayOrder(a.month, a.day, b.month, b.day);
  }

  /** The "-MM-DD" tails of two day folders sort by month, then by day. */
  lemma MonthDayOrder(am: nat, ad: nat, bm: nat, bd: nat)
    requires am < 100 && ad < 100 && bm < 100 && bd < 100
    ensures Pow10(2) == 100
    ensures LexLess("-" + Pad(am, 2) + "-" + Pad(ad, 2), "-" + Pad(bm, 2) + "-" + Pad(bd, 2))
      <==> am < bm || (am == bm && ad < bd)
  {
    Widths();
    var da, db := "-" + Pad(ad, 2), "-" + Pad(bd, 2);
    assert "-" + Pad(am, 2) + "-" + Pad(ad, 2) == "-" + (Pad(am, 2) + da);
    assert "-" + Pad(bm, 2) + "-" + Pad(bd, 2) == "-" + (Pad(bm, 2) + db);
    LexLessCommonPrefix("-", Pad(am, 2) + da, Pad(bm, 2) + db);
    PadOrder(am, bm, 2, da, db);
    LexLessCommonPrefix("-", Pad(ad, 2), Pad(bd, 2));
    assert Pad(ad, 2) == Pad(ad, 2) + "";
    assert Pad(bd, 2) == Pad(bd, 2) + "";
    PadOrder(ad, bd, 2, "", "");
  }

  /** The stamp "HHhMMmSSs" is nine characters and reads back to its time. */
  lemma FileStampFormat(c: Clock)
    requires c.Valid()
    ensures |FileStamp(c)| == 9
    ensures FileStamp(c)[2] == 'h' && FileStamp(c)[5] == 'm' && FileStamp(c)[8] == 's'
    ensures Clock(Value(FileStamp(c)[..2]), Value(FileStamp(c)[3..5]), Value(FileStamp(c)[6..8])) == c
  {
    Widths();
    var s := FileStamp(c);
    assert s[..2] == Pad(c.hour, 2);
    assert s[3..5] == Pad(c.minute, 2);
    assert s[6..8] == Pad(c.second, 2);
    PadValue(c.hour, 2);
    PadValue(c.minute, 2);
    PadValue(c.second, 2);
  }

  /** "HHhMM" and "HH:MM:SS" keep the same zero-padded fields. */
  lemma ClockFormats(c: Clock)
    requires c.Valid()
    ensures |Timestamp(c)| == 5 && Timestamp(c)[2] == 'h'
    ensures Timestamp(c) == FileStamp(c)[..5]
    ensures |ClockStamp(c)| == 8 && ClockStamp(c)[2] == ':' && ClockStamp(c)[5] == ':'
    ensures Value(ClockStamp(c)[..2]) == c.hour && Value(ClockStamp(c)[3..5]) == c.minute
    ensures Value(ClockStamp(c)[6..]) == c.second
  {
    Widths();
    var s := ClockStamp(c);
    assert s[..2] == Pad(c.hour, 2);
    assert s[3..5] == Pad(c.minute, 2);
    assert s[6..] == Pad(c.second, 2);
    PadValue(c.hour, 2);
    PadValue(c.minute, 2);
    PadValue(c.second, 2);
  }

  /** The full stamp is the day folder, an underscore and the file stamp. */
  lemma DatetimeStampFormat(d: Date, c: Clock)
    requires d.Valid() && c.Valid()
    ensures |DatetimeStamp(d, c)| == 20 && DatetimeStamp(d, c)[10] == '_'
    ensures ParseDay(DatetimeStamp(d, c)[..10]) == d
    ensures DatetimeStamp(d, c)[11..] == FileStamp(c)
    ensures var t := DatetimeStamp(d, c)[11..]; Clock(Value(t[..2]), Value(t[3..5]), Value(t[6..8])) == c
  {
    DayFolderFormat(d);
    FileStampFormat(c);
    assert DatetimeStamp(d, c)[..10] == DayFolder(d);
    assert DatetimeStamp(d, c)[11..] == FileStamp(c);
  }
}
