/**
 * JSON string literals: the quoting `JSON.stringify` applies to a string
 * (the QuoteJSONString operation of ECMA-262) and a parser for string
 * literals as `JSON.parse` reads them, with the round trip between the two.
 */
module JsonString {
  import opened Wrappers
  import opened Scan

  /** Lower-case hexadecimal digit, as QuoteJSONString writes them. */
  function HexDigit(d: nat): (c: char)
    requires d < 16
    ensures IsHex(c) && HexValue(c) == d
  {
    if d < 10 then DigitChar(d) else ('a' as int + d - 10) as char
  }

  predicate IsHex(c: char) {
    IsDigit(c) || 'a' <= c <= 'f' || 'A' <= c <= 'F'
  }

  function HexValue(c: char): (v: nat)
    requires IsHex(c)
    ensures v < 16
  {
    if IsDigit(c) then DigitValue(c)
    else if 'a' <= c <= 'f' then c as int - 'a' as int + 10
    else c as int - 'A' as int + 10
  }

  /** The text that stands for one character inside a quoted JSON string. */
  function EscapeChar(c: char): string {
    if c == '"' then "\\\""
    else if c == '\\' then "\\\\"
    else if c == '\U{8}' then "\\b"
    else if c == '\U{C}' then "\\f"
    else if c == '\n' then "\\n"
    else if c == '\r' then "\\r"
    else if c == '\t' then "\\t"
    else if c < ' ' then "\\u00" + [HexDigit(c as int / 16), HexDigit(c as int % 16)]
    else [c]
  }

  /** A character `JSON.stringify` writes as itself inside a string. */
  predicate IsPlain(c: char) {
    ' ' <= c && !HasNamedEscape(c)
  }

  /** The escaped characters of `x`; text without special characters is left as it is. */
  function Escape(x: string): (r: string)
    ensures |r| >= |x|
    ensures (forall i :: 0 <= i < |x| ==> IsPlain(x[i])) ==> r == x
  {
    if x == [] then []
    else
      assert forall i :: 0 <= i < |x[1..]| ==> x[1..][i] == x[i + 1];
      EscapeChar(x[0]) + Escape(x[1..])
  }

  /** `JSON.stringify` of a string: the escaped text between double quotes. */
  function Quote(x: string): (r: string)
    ensures |r| >= |x| + 2 && r[0] == '"' && r[|r| - 1] == '"'
    ensures (forall i :: 0 <= i < |x| ==> IsPlain(x[i])) ==> r == "\"" + x + "\""
  {
    "\"" + Escape(x) + "\""
  }

  /**
   * Reads the escape sequence that follows a backslash: the character it
   * stands for and how many characters of `t` it takes.
   */
  function Unescape(t: string): (r: Option<(char, nat)>)
    ensures r.Some? ==> 1 <= r.value.1 <= |t|
  {
    if |t| == 0 then None
    else if t[0] == '"' then Some(('"', 1))
    else if t[0] == '\\' then Some(('\\', 1))
    else if t[0] == '/' then Some(('/', 1))
    else if t[0] == 'b' then Some(('\U{8}', 1))
    else if t[0] == 'f' then Some(('\U{C}', 1))
    else if t[0] == 'n' then Some(('\n', 1))
    else if t[0] == 'r' then Some(('\r', 1))
    else if t[0] == 't' then Some(('\t', 1))
    else if t[0] == 'u' && |t| >= 5 && IsHex(t[1]) && IsHex(t[2]) && IsHex(t[3]) && IsHex(t[4]) then
      var code := HexValue(t[1]) * 4096 + HexValue(t[2]) * 256 + HexValue(t[3]) * 16 + HexValue(t[4]);
      if code < 0xD800 || 0xE000 <= code then Some((code as char, 5)) else None
    else None
  }

  /** Puts `c` in front of the characters read, if reading succeeded. */
  function Cons(c: char, r: Option<(string, string)>): (r': Option<(string, string)>)
    ensures r'.Some? <==> r.Some?
    ensures r.Some? ==> r'.value == ([c] + r.value.0, r.value.1)
  {
    match r
    case None => None
    case Some((body, rest)) => Some(([c] + body, rest))
  }

  /**
   * Reads the characters of a string literal whose opening quote is already
   * consumed, up to and including the closing quote. Raw control characters
   * are not allowed inside a JSON string.
   */
  function ParseChars(s: string): (r: Option<(string, string)>)
    ensures r.Some? ==> |r.value.1| < |s|
    decreases |s|
  {
    if |s| == 0 then None
    else if s[0] == '"' then Some(([], s[1..]))
    else if s[0] == '\\' then
      match Unescape(s[1..])
      case None => None
      case Some((c, k)) => Cons(c, ParseChars(s[1 + k..]))
    else if s[0] < ' ' then None
    else Cons(s[0], ParseChars(s[1..]))
  }

  /** Reads one JSON string literal at the front of `s`. */
  function ParseString(s: string): (r: Option<(string, string)>)
    ensures r.Some? ==> |r.value.1| < |s|
  {
    if |s| > 0 && s[0] == '"' then ParseChars(s[1..]) else None
  }

  /** A named escape: `\"`, `\\`, `\b`, `\f`, `\n`, `\r` or `\t`. */
  predicate HasNamedEscape(c: char) {
    c == '"' || c == '\\' || c == '\U{8}' || c == '\U{C}' || c == '\n' || c == '\r' || c == '\t'
  }

  lemma NamedEscapeStep(c: char, t: string)
    requires HasNamedEscape(c)
    ensures ParseChars(EscapeChar(c) + t) == Cons(c, ParseChars(t))
  {
    var e := EscapeChar(c);
    var s := e + t;
    assert |e| == 2 && e[0] == '\\';
    assert s[1..] == [e[1]] + t;
    assert Unescape(s[1..]) == Some((c, 1));
    assert s[2..] == t;
  }

  lemma ParseCharsEscaped(s: string, c: char, k: nat)
    requires |s| > 0 && s[0] == '\\' && Unescape(s[1..]) == Some((c, k))
    ensures ParseChars(s) == Cons(c, ParseChars(s[1 + k..]))
  {
  }

  lemma UnicodeEscape(code: nat, t: string)
    requires code < 32
    ensures Unescape(['u', '0', '0', HexDigit(code / 16), HexDigit(code % 16)] + t) == Some((code as char, 5))
  {
    var u := ['u', '0', '0', HexDigit(code / 16), HexDigit(code % 16)] + t;
    assert u[0] == 'u' && u[1] == '0' && u[2] == '0';
    assert HexValue(u[1]) * 4096 + HexValue(u[2]) * 256 + HexValue(u[3]) * 16 + HexValue(u[4]) == code;
  }

  lemma ControlEscapeStep(c: char, t: string)
    requires c < ' ' && !HasNamedEscape(c)
    ensures ParseChars(EscapeChar(c) + t) == Cons(c, ParseChars(t))
  {
    var code := c as int;
    var e := EscapeChar(c);
    assert e == ['\\', 'u', '0', '0', HexDigit(code / 16), HexDigit(code % 16)];
    var s := e + t;
    assert s[1..] == ['u', '0', '0', HexDigit(code / 16), HexDigit(code % 16)] + t;
    UnicodeEscape(code, t);
    ParseCharsEscaped(s, c, 5);
    assert s[6..] == t;
  }

  lemma PlainStep(c: char, t: string)
    requires IsPlain(c)
    ensures ParseChars(EscapeChar(c) + t) == Cons(c, ParseChars(t))
  {
    assert EscapeChar(c) + t == [c] + t;
    assert ([c] + t)[1..] == t;
  }

  /** The escaped form of one character reads back as that character. */
  lemma EscapeCharStep(c: char, t: string)
    ensures ParseChars(EscapeChar(c) + t) == Cons(c, ParseChars(t))
  {
    if HasNamedEscape(c) {
      NamedEscapeStep(c, t);
    } else if c < ' ' {
      ControlEscapeStep(c, t);
    } else {
      PlainStep(c, t);
    }
  }

  lemma {:induction false} BodyRoundTrip(x: string, rest: string)
    ensures ParseChars(Escape(x) + "\"" + rest) == Some((x, rest))
  {
    if x == [] {
      assert Escape(x) + "\"" + rest == "\"" + rest;
    } else {
      var t := Escape(x[1..]) + "\"" + rest;
      assert Escape(x) + "\"" + rest == EscapeChar(x[0]) + t;
      EscapeCharStep(x[0], t);
      BodyRoundTrip(x[1..], rest);
      assert [x[0]] + x[1..] == x;
    }
  }

  /** A quoted string reads back as the string itself, whatever follows it. */
  lemma StringRoundTrip(x: string, rest: string)
    ensures ParseString(Quote(x) + rest) == Some((x, rest))
  {
    var s := Quote(x) + rest;
    assert s[1..] == Escape(x) + "\"" + rest;
    BodyRoundTrip(x, rest);
  }
}
