/**
 * How encoding/json's Marshal writes a Go string: a double quote, the text with the
 * characters that need it escaped, and a double quote. Marshal escapes HTML-sensitive
 * characters (<, >, &) and U+2028/U+2029 as well as the characters JSON requires.
 * Unquote is a decoder for JSON string literals (surrogate escapes aside), used to state
 * that the encoding loses nothing.
 */
module Json {
  import opened Wrappers

  const HexDigits: string := "0123456789abcdef"

  /** The characters Marshal copies unchanged. */
  predicate Plain(c: char) {
    if c < '\U{80}' then ' ' <= c && c != '"' && c != '\\' && c != '<' && c != '>' && c != '&'
    else c != '\U{2028}' && c != '\U{2029}'
  }

  /** How Marshal writes one character inside a string literal. */
  function EscapeChar(c: char): (r: string)
    ensures |r| >= 1 && (r == [c] <==> Plain(c))
  {
    if Plain(c) then [c]
    else if c == '"' || c == '\\' then ['\\', c]
    else if c == '\U{8}' then "\\b"
    else if c == '\U{C}' then "\\f"
    else if c == '\n' then "\\n"
    else if c == '\r' then "\\r"
    else if c == '\t' then "\\t"
    else if c < '\U{80}' then "\\u00" + [HexDigits[c as int / 16], HexDigits[c as int % 16]]
    else "\\u202" + [HexDigits[c as int % 16]]
  }

  /** The body of the literal; text that needs no escaping is written as it is. */
  function Escape(s: string): (r: string)
    ensures |r| >= |s|
    ensures (forall i :: 0 <= i < |s| ==> Plain(s[i])) ==> r == s
    decreases |s|
  {
    if s == [] then [] else EscapeChar(s[0]) + Escape(s[1..])
  }

  /** The value of a hexadecimal digit, either case. */
  function HexValue(c: char): (r: Option<nat>)
    ensures r.Some? ==> r.value < 16
  {
    if '0' <= c <= '9' then Some(c as int - '0' as int)
    else if 'a' <= c <= 'f' then Some(c as int - 'a' as int + 10)
    else if 'A' <= c <= 'F' then Some(c as int - 'A' as int + 10)
    else None
  }

  /** The value of four hexadecimal digits. */
  function Hex4(s: string): (r: Option<nat>)
    requires |s| == 4
    ensures r.Some? ==> r.value < 0x10000
  {
    match (HexValue(s[0]), HexValue(s[1]), HexValue(s[2]), HexValue(s[3]))
    case (Some(a), Some(b), Some(c), Some(d)) => Some(((a * 16 + b) * 16 + c) * 16 + d)
    case _ => None
  }

  function Cons(c: char, rest: Option<string>): Option<string> {
    if rest.Some? then Some([c] + rest.value) else None
  }

  /** Decodes the body of a JSON string literal; None for text no JSON string body can be. */
  function Unescape(s: string): Option<string>
    decreases |s|
  {
    if s == [] then Some([])
    else if s[0] == '"' || s[0] < ' ' then None
    else if s[0] != '\\' then Cons(s[0], Unescape(s[1..]))
    else if |s| < 2 then None
    else if s[1] == '"' || s[1] == '\\' || s[1] == '/' then Cons(s[1], Unescape(s[2..]))
    else if s[1] == 'b' then Cons('\U{8}', Unescape(s[2..]))
    else if s[1] == 'f' then Cons('\U{C}', Unescape(s[2..]))
    else if s[1] == 'n' then Cons('\n', Unescape(s[2..]))
    else if s[1] == 'r' then Cons('\r', Unescape(s[2..]))
    else if s[1] == 't' then Cons('\t', Unescape(s[2..]))
    else if s[1] == 'u' && |s| >= 6 then
      match Hex4(s[2..6])
      case None => None
      case Some(code) =>
        if 0xD800 <= code < 0xE000 then None else Cons(code as char, Unescape(s[6..]))
    else None
  }

  /** Decodes a whole JSON string literal. */
  function Unquote(lit: string): Option<string> {
    if |lit| >= 2 && lit[0] == '"' && lit[|lit| - 1] == '"' then Unescape(lit[1..|lit| - 1]) else None
  }

  /** The characters Marshal writes as a backslash and one letter or the character itself. */
  predicate ShortEscaped(c: char) {
    c == '"' || c == '\\' || c == '\U{8}' || c == '\U{C}' || c == '\n' || c == '\r' || c == '\t'
  }

  /** The short escapes decode to the character they stand for. */
  lemma UnescapeShortEscape(c: char, rest: string)
    requires !Plain(c) && ShortEscaped(c)
    ensures Unescape(EscapeChar(c) + rest) == Cons(c, Unescape(rest))
  {
  }

  /** A `\u00XY` escape of an ASCII character decodes to that character. */
  lemma UnescapeAsciiEscape(c: char, rest: string)
    requires !Plain(c) && !ShortEscaped(c) && c < '\U{80}'
    ensures Unescape(EscapeChar(c) + rest) == Cons(c, Unescape(rest))
  {
  }

  /** The `\u2028` and `\u2029` escapes decode to the line and paragraph separators. */
  lemma UnescapeSeparatorEscape(c: char, rest: string)
    requires !Plain(c) && '\U{80}' <= c
    ensures Unescape(EscapeChar(c) + rest) == Cons(c, Unescape(rest))
  {
  }

  /** Decoding an escaped character followed by more text yields the character, then the rest. */
  lemma UnescapeEscapeChar(c: char, rest: string)
    ensures Unescape(EscapeChar(c) + rest) == Cons(c, Unescape(rest))
  {
    if Plain(c) {
      var t := EscapeChar(c) + rest;
      assert t[0] == c && t[1..] == rest;
    } else if ShortEscaped(c) {
      UnescapeShortEscape(c, rest);
    } else if c < '\U{80}' {
      UnescapeAsciiEscape(c, rest);
    } else {
      UnescapeSeparatorEscape(c, rest);
    }
  }

  /** Decoding the escaped text gives back the original text. */
  lemma {:induction false} UnescapeEscape(s: string)
    ensures Unescape(Escape(s)) == Some(s)
    decreases |s|
  {
    if s != [] {
      UnescapeEscape(s[1..]);
      UnescapeEscapeChar(s[0], Escape(s[1..]));
      assert [s[0]] + s[1..] == s;
    }
  }

  /**
   * json.Marshal of a string. It always succeeds; the result is a JSON string literal,
   * and decoding it gives back the original text.
   */
  function Marshal(s: string): (r: string)
    ensures |r| >= 2 && r[0] == '"' && r[|r| - 1] == '"'
    ensures Unquote(r) == Some(s)
  {
    var r := "\"" + Escape(s) + "\"";
    UnescapeEscape(s);
    assert r[1..|r| - 1] == Escape(s);
    r
  }
}
