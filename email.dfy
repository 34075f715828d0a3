/** The e-mail sender (src/delivery/email_sender.py): the markdown-to-HTML
    conversion of the daily summary, and the gating of `send`,
    `send_daily_summary` and `send_error_alert` by the `enabled` and
    `send_on_error` settings. The SMTP session is not modelled: whether it
    delivers is an input, and the sender records each message it hands to
    the server. */
module Email {
  import opened Wrappers
  import opened Strings
  import opened Helpers
  import Config

  // ---------------------------------------------------------------------
  // _markdown_to_html

  /** The header rule for one line: "## " gives a level-two heading, and
      otherwise "# " a level-one heading. */
  function HeaderLine(line: string): string {
    if StartsWith(line, "## ") then "<h2>" + line[3..] + "</h2>"
    else if StartsWith(line, "# ") then "<h1>" + line[2..] + "</h1>"
    else line
  }

  function HeaderLines(lines: seq<string>): (r: seq<string>)
    ensures |r| == |lines|
    ensures forall i :: 0 <= i < |lines| ==> r[i] == HeaderLine(lines[i])
  {
    seq(|lines|, i requires 0 <= i < |lines| => HeaderLine(lines[i]))
  }

  /** Where the lazy `(.+?)` of the bold pattern can stop: the first "**"
      after at least one character, with no newline before it. The content
      so far, `s[j..k]`, is non-empty and has no newline. */
  function FindClose(s: string, j: nat, k: nat): (r: Option<nat>)
    requires j < k <= |s|
    requires '\n' !in s[j..k]
    ensures r.Some? ==> j < r.value && r.value + 2 <= |s| && s[r.value..r.value + 2] == "**"
    ensures r.Some? ==> '\n' !in s[j..r.value]
    ensures r.Some? ==> forall m :: k <= m < r.value ==> !OccursAt(s, "**", m)
    decreases |s| - k
  {
    if k + 2 <= |s| && s[k..k + 2] == "**" then Some(k)
    else if k < |s| && s[k] != '\n' then
      assert s[j..k + 1] == s[j..k] + [s[k]];
      FindClose(s, j, k + 1)
    else None
  }

  /** `re.sub(r'\*\*(.+?)\*\*', r'<strong>\1</strong>', s)`: at each
      position a match is tried, the shortest one is taken, and scanning
      resumes after it. */
  function Bold(s: string): string
    decreases |s|
  {
    if |s| == 0 then ""
    else if |s| >= 3 && s[..2] == "**" && s[2] != '\n' then
      match FindClose(s, 2, 3)
      case Some(k) => "<strong>" + s[2..k] + "</strong>" + Bold(s[k + 2..])
      case None => [s[0]] + Bold(s[1..])
    else [s[0]] + Bold(s[1..])
  }

  /** `**x**` with non-empty `x` free of stars and newlines becomes
      `<strong>x</strong>`, and the rest is processed after it. */
  lemma BoldSpan(x: string, rest: string)
    requires |x| > 0 && '*' !in x && '\n' !in x
    ensures Bold("**" + x + "**" + rest) == "<strong>" + x + "</strong>" + Bold(rest)
  {
    var s := "**" + x + "**" + rest;
    var e := 2 + |x|;
    assert s[..2] == "**" && s[2] == x[0];
    assert s[2..3] == x[..1];
    assert s[e..e + 2] == "**";
    assert s[2..e] == x;
    assert s[e + 2..] == rest;
    var r := FindClose(s, 2, 3);
    ClosesAt(s, x, 3);
  }

  lemma {:induction false} ClosesAt(s: string, x: string, k: nat)
    requires |x| > 0 && '*' !in x && '\n' !in x
    requires |s| >= 4 + |x| && s[..2] == "**" && s[2..2 + |x|] == x && s[2 + |x|..4 + |x|] == "**"
    requires 3 <= k <= 2 + |x|
    ensures FindClose(s, 2, k) == Some(2 + |x|)
    decreases 2 + |x| - k
  {
    assert s[2..k] == x[..k - 2];
    if k < 2 + |x| {
      assert s[k] == x[k - 2];
      assert s[k..k + 2] != "**" by {
        assert s[k] != '*';
      }
      ClosesAt(s, x, k + 1);
    }
  }

  /** Text without stars is left alone by the bold pass. */
  lemma {:induction false} BoldNoStars(s: string)
    requires '*' !in s
    ensures Bold(s) == s
    decreases |s|
  {
    if |s| > 0 {
      if |s| >= 3 {
        assert s[..2] != "**" by { assert s[0] != '*'; }
      }
      BoldNoStars(s[1..]);
    }
  }

  /** The bold pass never adds or removes a line break. */
  lemma {:induction false} BoldKeepsNewlines(s: string)
    ensures CountChar(Bold(s), '\n') == CountChar(s, '\n')
    decreases |s|
  {
    if |s| > 0 {
      if |s| >= 3 && s[..2] == "**" && s[2] != '\n' && FindClose(s, 2, 3).Some? {
        var k := FindClose(s, 2, 3).value;
        BoldKeepsNewlines(s[k + 2..]);
        SpanCount(s, k);
        NoBreak("<strong>", s[2..k], "</strong>");
        CountCharAppend("<strong>" + s[2..k] + "</strong>", Bold(s[k + 2..]), '\n');
      } else {
        BoldKeepsNewlines(s[1..]);
        CountCharAppend([s[0]], Bold(s[1..]), '\n');
        CountCharAppend([s[0]], s[1..], '\n');
        assert s == [s[0]] + s[1..];
      }
    }
  }

  /** A matched span holds no line break. */
  lemma SpanCount(s: string, k: nat)
    requires 2 < k && k + 2 <= |s| && s[..2] == "**" && s[k..k + 2] == "**"
    requires '\n' !in s[2..k]
    ensures CountChar(s, '\n') == CountChar(s[k + 2..], '\n')
  {
    forall i | 0 <= i < k + 2 ensures s[i] != '\n' {
      if i < 2 {
        assert s[i] == s[..2][i];
      } else if i < k {
        assert s[i] == s[2..k][i - 2];
      } else {
        assert s[i] == s[k..k + 2][i - k];
      }
    }
    assert '\n' !in s[..k + 2];
    CountCharDropPrefix(s, k + 2, '\n');
  }

  lemma NoBreak(a: string, b: string, c: string)
    requires '\n' !in a && '\n' !in b && '\n' !in c
    ensures CountChar(a + b + c, '\n') == 0
  {
    assert '\n' !in a + b + c;
    CountCharAbsent(a + b + c, '\n');
  }

  /** The list rule for one line: `^- (.+)$` with `.` not crossing a line
      break, so "- " followed by at least one character. */
  function ListLine(line: string): string {
    if |line| > 2 && line[..2] == "- " then "<li>" + line[2..] + "</li>" else line
  }

  function ListLines(lines: seq<string>): (r: seq<string>)
    ensures |r| == |lines|
    ensures forall i :: 0 <= i < |lines| ==> r[i] == ListLine(lines[i])
  {
    seq(|lines|, i requires 0 <= i < |lines| => ListLine(lines[i]))
  }

  /** The multi-line list substitution, one line at a time. */
  function ListPass(s: string): string {
    Join(ListLines(Split(s, '\n')), "\n")
  }

  /** Each newline becomes "<br>" and the newline. */
  function Breaks(s: string): string {
    ReplaceAll(s, "\n", "<br>\n")
  }

  const WrapperHead: string := "\n        <html>\n        <body style=\"font-family: Arial, sans-serif; line-height: 1.6; color: #333;\">\n        "
  const WrapperTail: string := "\n        </body>\n        </html>\n        "

  /** The markdown transformation before the wrapper is put around it. */
  function Body(markdown: string): string {
    Breaks(ListPass(Bold(Join(HeaderLines(Split(markdown, '\n')), "\n"))))
  }

  /** `_markdown_to_html` as a specification. */
  function MarkdownHtml(markdown: string): string {
    WrapperHead + Body(markdown) + WrapperTail
  }

  /** `_markdown_to_html`: the source's loop over the lines rewrites the
      headings in place, then the three substitutions run over the joined
      text and the wrapper is put around it. */
  method MarkdownToHtml(markdown: string) returns (html: string)
    ensures html == MarkdownHtml(markdown)
  {
    var lines := Split(markdown, '\n');
    var i := 0;
    while i < |lines|
      invariant 0 <= i <= |lines| && |lines| == |Split(markdown, '\n')|
      invariant forall k :: 0 <= k < i ==> lines[k] == HeaderLine(Split(markdown, '\n')[k])
      invariant forall k :: i <= k < |lines| ==> lines[k] == Split(markdown, '\n')[k]
    {
      var line := lines[i];
      if StartsWith(line, "## ") {
        lines := lines[i := "<h2>" + line[3..] + "</h2>"];
      } else if StartsWith(line, "# ") {
        lines := lines[i := "<h1>" + line[2..] + "</h1>"];
      }
      i := i + 1;
    }
    assert lines == HeaderLines(Split(markdown, '\n'));
    html := Join(lines, "\n");
    html := Bold(html);
    html := ListPass(html);
    html := Breaks(html);
    html := WrapperHead + html + WrapperTail;
  }

  /** A line-wise rewrite that keeps lines free of newlines keeps the
      number of newlines. */
  lemma LinewiseKeepsNewlines(s: string, lines: seq<string>)
    requires |lines| == |Split(s, '\n')|
    requires forall k :: 0 <= k < |lines| ==> '\n' !in lines[k]
    ensures CountChar(Join(lines, "\n"), '\n') == CountChar(s, '\n')
  {
    SplitCount(s, '\n');
    CountCharJoin(lines, '\n');
  }

  lemma HeaderLineNoNewline(line: string)
    requires '\n' !in line
    ensures '\n' !in HeaderLine(line)
  {
    if StartsWith(line, "## ") {
      assert forall k :: 0 <= k < |line[3..]| ==> line[3..][k] == line[k + 3];
    } else if StartsWith(line, "# ") {
      assert forall k :: 0 <= k < |line[2..]| ==> line[2..][k] == line[k + 2];
    }
  }

  lemma ListLineNoNewline(line: string)
    requires '\n' !in line
    ensures '\n' !in ListLine(line)
  {
    if |line| > 2 && line[..2] == "- " {
      assert forall k :: 0 <= k < |line[2..]| ==> line[2..][k] == line[k + 2];
    }
  }

  /** Headings, bold and list items never add or remove a line, so the
      HTML body is the transformed lines joined by "<br>\n": one "<br>" per
      newline of the markdown. */
  lemma BodyLines(markdown: string)
    ensures var pre := ListPass(Bold(Join(HeaderLines(Split(markdown, '\n')), "\n")));
      CountChar(pre, '\n') == CountChar(markdown, '\n')
      && Body(markdown) == Join(Split(pre, '\n'), "<br>\n")
      && |Split(pre, '\n')| == |Split(markdown, '\n')|
  {
    var lines := Split(markdown, '\n');
    SplitJoin(markdown, '\n');
    forall k | 0 <= k < |lines| ensures '\n' !in HeaderLines(lines)[k] {
      HeaderLineNoNewline(lines[k]);
    }
    var headed := Join(HeaderLines(lines), "\n");
    LinewiseKeepsNewlines(markdown, HeaderLines(lines));
    var bolded := Bold(headed);
    BoldKeepsNewlines(headed);
    var bl := Split(bolded, '\n');
    SplitJoin(bolded, '\n');
    SplitCount(bolded, '\n');
    forall k | 0 <= k < |bl| ensures '\n' !in ListLines(bl)[k] {
      ListLineNoNewline(bl[k]);
    }
    LinewiseKeepsNewlines(bolded, ListLines(bl));
    var pre := ListPass(bolded);
    ReplaceCharIsJoin(pre, '\n', "<br>\n");
    SplitCount(pre, '\n');
    SplitCount(markdown, '\n');
  }

  // ---------------------------------------------------------------------
  // EmailSender

  /** A message handed to the SMTP server. */
  datatype Mail = Mail(subject: string, body: string, isHtml: bool, recipient: Config.Value)

  const EnabledKey: string := "email.enabled"
  const RecipientKey: string := "email.recipient_email"
  const SendOnErrorKey: string := "email.send_on_error"

  const ErrorSubject: string := "⚠️ Erro no Voice Screen Assistant"

  function SummarySubject(today: Date): string
    requires today.Valid()
  {
    "📋 Resumo do dia " + DayFolder(today)
  }

  function ErrorBody(message: string): string {
    "Ocorreu um erro no assistente:\n\n" + message
  }

  /** `EmailSender`: its settings as read at construction, and every
      message it has handed to the server. */
  class EmailSender {
    const enabled: Config.Value
    const recipientEmail: Config.Value
    const sendOnError: Config.Value
    var handedOver: seq<Mail>

    constructor (config: Config.Value)
      ensures enabled == Config.Get(config, EnabledKey, Config.Bool(false))
      ensures recipientEmail == Config.Get(config, RecipientKey, Config.Null)
      ensures sendOnError == Config.Get(config, SendOnErrorKey, Config.Bool(true))
      ensures handedOver == []
    {
      enabled := Config.Get(config, EnabledKey, Config.Bool(false));
      recipientEmail := Config.Get(config, RecipientKey, Config.Null);
      sendOnError := Config.Get(config, SendOnErrorKey, Config.Bool(true));
      handedOver := [];
    }

    /** `recipient or self.recipient_email` */
    function Recipient(recipient: Option<string>): Config.Value
      reads this
    {
      if recipient.Some? && recipient.value != "" then Config.Str(recipient.value) else recipientEmail
    }

    /** `send`: disabled, it returns False and the server is never
        contacted; enabled, the message is handed over and the result is
        whether the session delivered it. */
    method Send(subject: string, body: string, isHtml: bool, recipient: Option<string>, delivered: bool)
      returns (ok: bool)
      modifies this
      ensures !Config.Truthy(enabled) ==> !ok && handedOver == old(handedOver)
      ensures Config.Truthy(enabled) ==>
        ok == delivered && handedOver == old(handedOver) + [Mail(subject, body, isHtml, Recipient(recipient))]
    {
      if !Config.Truthy(enabled) {
        return false;
      }
      handedOver := handedOver + [Mail(subject, body, isHtml, Recipient(recipient))];
      ok := delivered;
    }

    /** `send_daily_summary`: the summary, converted to HTML, under the
        day's subject. */
    method SendDailySummary(summary: string, today: Date, delivered: bool) returns (ok: bool)
      requires today.Valid()
      modifies this
      ensures !Config.Truthy(enabled) ==> !ok && handedOver == old(handedOver)
      ensures Config.Truthy(enabled) ==>
        ok == delivered
        && handedOver == old(handedOver) + [Mail(SummarySubject(today), MarkdownHtml(summary), true, recipientEmail)]
    {
      var html := MarkdownToHtml(summary);
      ok := Send(SummarySubject(today), html, true, None, delivered);
    }

    /** `send_error_alert`: nothing is sent when `send_on_error` is off;
        otherwise a plain-text alert goes through `send`. */
    method SendErrorAlert(message: string, delivered: bool) returns (ok: bool)
      modifies this
      ensures !Config.Truthy(sendOnError) || !Config.Truthy(enabled) ==> !ok && handedOver == old(handedOver)
      ensures Config.Truthy(sendOnError) && Config.Truthy(enabled) ==>
        ok == delivered
        && handedOver == old(handedOver) + [Mail(ErrorSubject, ErrorBody(message), false, recipientEmail)]
    {
      if !Config.Truthy(sendOnError) {
        return false;
      }
      ok := Send(ErrorSubject, ErrorBody(message), false, None, delivered);
    }
  }
}
