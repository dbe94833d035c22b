/**
 * `format_json_output` (app/utils/scraper.py, app/scraper.py): every newline of the markdown
 * is doubled, and the result is written as `json.dumps({"markdown": ...}, indent=2,
 * ensure_ascii=False)`. With `ensure_ascii=False` Python's encoder escapes only `"`, `\`
 * and the control characters below U+0020: `\n`, `\r`, `\t`, `\b` and `\f` by name, the rest
 * as `\u00xx` with lower-case hex digits; every other character is copied.
 */
module Json {
  import opened Wrappers
  import opened Text

  /** `s.replace("\n", "\n\n")`. */
  function DoubleNewlines(s: string): string {
    if s == [] then ""
    else (if s[0] == '\n' then "\n\n" else [s[0]]) + DoubleNewlines(s[1..])
  }

  /** Reads a doubled string back: each `\n\n` becomes one newline; a lone newline is refused. */
  function UndoubleNewlines(s: string): Option<string> {
    if s == [] then Some("")
    else if s[0] != '\n' then
      match UndoubleNewlines(s[1..])
      case Some(r) => Some([s[0]] + r)
      case None => None
    else if |s| >= 2 && s[1] == '\n' then
      match UndoubleNewlines(s[2..])
      case Some(r) => Some("\n" + r)
      case None => None
    else None
  }

  lemma {:induction false} UndoubleDouble(s: string)
    ensures UndoubleNewlines(DoubleNewlines(s)) == Some(s)
  {
    if s != [] {
      UndoubleDouble(s[1..]);
      var d := DoubleNewlines(s);
      if s[0] == '\n' {
        assert d[2..] == DoubleNewlines(s[1..]);
      } else {
        assert d[1..] == DoubleNewlines(s[1..]);
      }
      assert s == [s[0]] + s[1..];
    }
  }

  function HexDigit(n: nat): char
    requires n < 16
  {
    if n < 10 then ('0' as int + n) as char else ('a' as int + n - 10) as char
  }

  /** The value of a lower- or upper-case hex digit. */
  function HexValue(c: char): Option<nat> {
    if '0' <= c <= '9' then Some(c as int - '0' as int)
    else if 'a' <= c <= 'f' then Some(c as int - 'a' as int + 10)
    else if 'A' <= c <= 'F' then Some(c as int - 'A' as int + 10)
    else None
  }

  lemma HexRoundTrip(n: nat)
    requires n < 16
    ensures HexValue(HexDigit(n)) == Some(n)
  {
  }

  /** How the encoder writes one character inside a string literal. */
  function EscapeChar(c: char): string {
    if c == '"' then "\\\""
    else if c == '\\' then "\\\\"
    else if c == '\n' then "\\n"
    else if c == '\r' then "\\r"
    else if c == '\t' then "\\t"
    else if c == '\U{0008}' then "\\b"
    else if c == '\U{000C}' then "\\f"
    else if c < ' ' then ['\\', 'u', '0', '0', HexDigit(c as int / 16), HexDigit(c as int % 16)]
    else [c]
  }

  function Escape(s: string): string {
    if s == [] then "" else EscapeChar(s[0]) + Escape(s[1..])
  }

  /** A character that may stand for itself inside a JSON string literal. */
  predicate Plain(c: char) {
    c != '"' && c != '\\' && c >= ' '
  }

  /** The four hex digits of a `\uXXXX` escape as a character, when they name one. */
  function UnicodeEscape(h: string): Option<char>
    requires |h| == 4
  {
    match (HexValue(h[0]), HexValue(h[1]), HexValue(h[2]), HexValue(h[3]))
    case (Some(a), Some(b), Some(c), Some(d)) =>
      var v := a * 4096 + b * 256 + c * 16 + d;
      if v < 0xD800 || (0xDFFF < v && v < 0x11_0000) then Some(v as char) else None
    case _ => None
  }

  /** Decodes the inside of a JSON string literal. */
  function Unescape(s: string): Option<string>
    decreases |s|
  {
    if s == [] then Some("")
    else if s[0] != '\\' then
      if Plain(s[0]) then Prepend(s[0], Unescape(s[1..])) else None
    else if |s| < 2 then None
    else
      var e := s[1];
      if e == 'u' then
        if |s| >= 6 then
          match UnicodeEscape(s[2..6])
          case Some(c) => Prepend(c, Unescape(s[6..]))
          case None => None
        else None
      else
        var c := if e == '"' then Some('"') else if e == '\\' then Some('\\')
          else if e == '/' then Some('/') else if e == 'n' then Some('\n')
          else if e == 'r' then Some('\r') else if e == 't' then Some('\t')
          else if e == 'b' then Some('\U{0008}') else if e == 'f' then Some('\U{000C}') else None;
        match c
        case Some(ch) => Prepend(ch, Unescape(s[2..]))
        case None => None
  }

  function Prepend(c: char, r: Option<string>): Option<string> {
    match r
    case Some(t) => Some([c] + t)
    case None => None
  }

  lemma EscapeCharDecodes(c: char, rest: string)
    ensures Unescape(EscapeChar(c) + rest) == Prepend(c, Unescape(rest))
  {
    var e := EscapeChar(c);
    if c < ' ' && c != '\n' && c != '\r' && c != '\t' && c != '\U{0008}' && c != '\U{000C}' {
      var hi, lo := c as int / 16, c as int % 16;
      HexRoundTrip(hi);
      HexRoundTrip(lo);
      assert (e + rest)[2..6] == ['0', '0', HexDigit(hi), HexDigit(lo)];
      assert (e + rest)[6..] == rest;
    } else if |e| == 2 {
      assert (e + rest)[2..] == rest;
    } else {
      assert (e + rest)[1..] == rest;
    }
  }

  /** Decoding undoes escaping. */
  lemma {:induction false} UnescapeEscape(s: string)
    ensures Unescape(Escape(s)) == Some(s)
  {
    if s != [] {
      UnescapeEscape(s[1..]);
      EscapeCharDecodes(s[0], Escape(s[1..]));
      assert s == [s[0]] + s[1..];
    }
  }

  const Opening: string := "{\n  \"markdown\": \""
  const Closing: string := "\"\n}"

  /** `format_json_output(markdown_content)`. */
  function FormatJsonOutput(markdown: string): (r: string)
    ensures StartsWith(r, Opening)
    ensures ReadJsonOutput(r) == Some(markdown)
  {
    var body := Escape(DoubleNewlines(markdown));
    var doc := Opening + body + Closing;
    assert doc[..|Opening|] == Opening;
    assert doc[|doc| - |Closing|..] == Closing;
    assert doc[|Opening|..|doc| - |Closing|] == body;
    UnescapeEscape(DoubleNewlines(markdown));
    UndoubleDouble(markdown);
    doc
  }

  /** Reads the document `FormatJsonOutput` writes back into the markdown it was given. */
  function ReadJsonOutput(doc: string): Option<string> {
    if |doc| >= |Opening| + |Closing| && doc[..|Opening|] == Opening && doc[|doc| - |Closing|..] == Closing then
      match Unescape(doc[|Opening|..|doc| - |Closing|])
      case Some(body) => UndoubleNewlines(body)
      case None => None
    else None
  }

  /** Every newline of the markdown comes out doubled, and nothing else changes. */
  lemma {:induction false} DoubleKeepsText(s: string)
    ensures |DoubleNewlines(s)| == |s| + Count(s, '\n')
    ensures UndoubleNewlines(DoubleNewlines(s)) == Some(s)
  {
    UndoubleDouble(s);
    if s != [] {
      DoubleKeepsText(s[1..]);
    }
  }

  function Count(s: string, c: char): nat {
    if s == [] then 0 else (if s[0] == c then 1 else 0) + Count(s[1..], c)
  }
}
