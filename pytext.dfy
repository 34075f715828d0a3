/** Python's `str()` and `repr()` of a parsed settings value, which the
    source applies wherever it interpolates a setting into text (the
    OpenRouter API key, the Drive folder name). A mapping of two or more
    entries has no rendering here: the parsed tree keeps no key order,
    and Python lists a mapping's entries in the document's order. */
module PyText {
  import opened Wrappers
  import opened Helpers
  import Config

  /** The quote `repr` puts around a string: a double quote when the text
      holds a single quote and no double quote, a single quote otherwise. */
  function QuoteFor(s: string): char {
    if '\'' in s && '"' !in s then '"' else '\''
  }

  function HexDigit(d: nat): char
    requires d < 16
  {
    if d < 10 then '0' + d as char else 'a' + (d - 10) as char
  }

  /** Whether `repr` writes the character as it is: neither the quote in
      use nor a backslash nor an ASCII control character. */
  predicate Plain(c: char, q: char) {
    c != '\\' && c != q && ' ' <= c && c != '\U{7F}'
  }

  /** How `repr` writes one character inside quotes `q`. */
  function EscapeChar(c: char, q: char): (r: string)
    ensures Plain(c, q) <==> r == [c]
  {
    if c == '\\' then "\\\\"
    else if c == q then ['\\', q]
    else if c == '\t' then "\\t"
    else if c == '\n' then "\\n"
    else if c == '\r' then "\\r"
    else if c < ' ' || c == '\U{7F}' then ['\\', 'x', HexDigit(c as nat / 16), HexDigit(c as nat % 16)]
    else [c]
  }

  function Escaped(s: string, q: char): string
    decreases |s|
  {
    if |s| == 0 then [] else EscapeChar(s[0], q) + Escaped(s[1..], q)
  }

  /** `repr()` of a string. */
  function ReprString(s: string): string {
    var q := QuoteFor(s);
    [q] + Escaped(s, q) + [q]
  }

  /** Text with nothing to escape comes back unchanged. */
  lemma {:induction false} EscapedPlain(s: string, q: char)
    requires forall i :: 0 <= i < |s| ==> Plain(s[i], q)
    ensures Escaped(s, q) == s
    decreases |s|
  {
    if |s| > 0 {
      EscapedPlain(s[1..], q);
      assert s == [s[0]] + s[1..];
    }
  }

  /** `repr` of a string with no quote, backslash or control character is
      the string between single quotes. */
  lemma ReprPlain(s: string)
    requires forall i :: 0 <= i < |s| ==> Plain(s[i], '\'') && s[i] != '"'
    ensures ReprString(s) == "'" + s + "'"
  {
    EscapedPlain(s, '\'');
  }

  /** `str()` of an integer. */
  function IntText(i: int): string {
    if i < 0 then "-" + NatToString(-i) else NatToString(i)
  }

  /** The key of a one-entry mapping. */
  function OnlyKey(m: map<string, Config.Value>): (k: string)
    requires |m| == 1
    ensures k in m
  {
    SingleKey(m);
    var k :| k in m.Keys; k
  }

  lemma SingleKey(m: map<string, Config.Value>)
    requires |m| == 1
    ensures forall a, b :: a in m && b in m ==> a == b
  {
    forall a | a in m
      ensures m.Keys == {a}
    {
      var rest := m.Keys - {a};
      assert m.Keys == rest + {a};
      assert |rest| == 0;
    }
  }

  /** `repr()` of a value; `None` for a mapping of two or more entries
      anywhere inside it. */
  function Repr(v: Config.Value): Option<string>
    decreases v, 1
  {
    match v
    case Null => Some("None")
    case Bool(b) => Some(if b then "True" else "False")
    case Int(i) => Some(IntText(i))
    case Str(s) => Some(ReprString(s))
    case List(items) =>
      (match ReprItems(items)
       case Some(t) => Some("[" + t + "]")
       case None => None)
    case Dict(m) =>
      if |m| == 0 then Some("{}")
      else if |m| == 1 then
        var k := OnlyKey(m);
        (match Repr(m[k])
         case Some(t) => Some("{" + ReprString(k) + ": " + t + "}")
         case None => None)
      else None
  }

  /** The items of a list, each by `repr()`, separated by ", ". */
  function ReprItems(items: seq<Config.Value>): Option<string>
    decreases items, 0
  {
    if |items| == 0 then Some("")
    else match Repr(items[0])
      case None => None
      case Some(t) =>
        if |items| == 1 then Some(t)
        else match ReprItems(items[1..])
          case None => None
          case Some(u) => Some(t + ", " + u)
  }

  /** `str()` of a value: a string is itself, anything else its `repr()`. */
  function Render(v: Config.Value): (r: Option<string>)
    ensures v.Str? ==> r == Some(v.s)
    ensures v.Null? ==> r == Some("None")
    ensures v.Int? && v.i >= 0 ==> r == Some(NatToString(v.i))
  {
    if v.Str? then Some(v.s) else Repr(v)
  }

  /** Whether a mapping of two or more entries occurs in the value. */
  predicate HasWideMapping(v: Config.Value)
    decreases v, 1
  {
    match v
    case List(items) => AnyWide(items)
    case Dict(m) => |m| >= 2 || (|m| == 1 && HasWideMapping(m[OnlyKey(m)]))
    case _ => false
  }

  predicate AnyWide(items: seq<Config.Value>)
    decreases items, 0
  {
    |items| > 0 && (HasWideMapping(items[0]) || AnyWide(items[1..]))
  }

  /** `repr()` has an answer exactly when no wide mapping occurs. */
  lemma {:induction false} ReprDefined(v: Config.Value)
    ensures Repr(v).None? <==> HasWideMapping(v)
    decreases v, 1
  {
    match v
    case List(items) => ItemsDefined(items);
    case Dict(m) =>
      if |m| == 1 {
        ReprDefined(m[OnlyKey(m)]);
      }
    case _ =>
  }

  lemma {:induction false} ItemsDefined(items: seq<Config.Value>)
    ensures ReprItems(items).None? <==> AnyWide(items)
    decreases items, 0
  {
    if |items| > 0 {
      ReprDefined(items[0]);
      if |items| > 1 {
        ItemsDefined(items[1..]);
      } else {
        assert items[1..] == [];
      }
    }
  }

  /** `str()` has an answer for every value but one holding a wide
      mapping. */
  lemma RenderDefined(v: Config.Value)
    ensures Render(v).None? <==> HasWideMapping(v)
  {
    ReprDefined(v);
  }

  /** `str(['key'])` is "['key']". */
  lemma RenderList()
    ensures Render(Config.List([Config.Str("key")])) == Some("['key']")
  {
    var items := [Config.Str("key")];
    ReprPlain("key");
    assert "'" + "key" + "'" == "'key'";
    assert Repr(Config.Str("key")) == Some("'key'");
    assert ReprItems(items) == Some("'key'");
    assert "[" + "'key'" + "]" == "['key']";
    assert Repr(Config.List(items)) == Some("['key']");
  }
}
