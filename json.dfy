/**
 * The JSON text of the stored session value, which is `null` or a string:
 * `JSON.stringify` for those two shapes and the part of `JSON.parse` that reads
 * them back, with the round trip between the two proved.
 */
module Json {
  import opened Api

  predicate IsWhitespace(c: char) {
    c == ' ' || c == '\t' || c == '\n' || c == '\r'
  }

  /** A lower-case hexadecimal digit, as `JSON.stringify` writes them. */
  function HexDigit(d: nat): (c: char)
    requires d < 16
  {
    if d < 10 then ('0' as int + d) as char else ('a' as int + d - 10) as char
  }

  /** The value of a hexadecimal digit of either case. */
  function HexValue(c: char): (r: Option<nat>)
    ensures r.Some? ==> r.value < 16
  {
    if '0' <= c <= '9' then Some(c as int - '0' as int)
    else if 'a' <= c <= 'f' then Some(c as int - 'a' as int + 10)
    else if 'A' <= c <= 'F' then Some(c as int - 'A' as int + 10)
    else None
  }

  lemma HexRoundTrip(d: nat)
    requires d < 16
    ensures HexValue(HexDigit(d)) == Some(d)
  {
  }

  const Backspace: char := 8 as char
  const FormFeed: char := 12 as char

  /**
   * How `JSON.stringify` writes one character inside a string literal: quote and
   * backslash escaped, the five control characters with short escapes written
   * short, every other control character as `\u00xx`, the rest as itself.
   */
  function EscapeChar(c: char): (e: string)
    ensures |e| >= 1 && e[0] != '"'
  {
    if c == '"' then ['\\', '"']
    else if c == '\\' then ['\\', '\\']
    else if c == Backspace then ['\\', 'b']
    else if c == '\t' then ['\\', 't']
    else if c == '\n' then ['\\', 'n']
    else if c == FormFeed then ['\\', 'f']
    else if c == '\r' then ['\\', 'r']
    else if c as int < 0x20 then ['\\', 'u', '0', '0', HexDigit(c as int / 16), HexDigit(c as int % 16)]
    else [c]
  }

  function EscapeAll(s: string): string {
    if s == [] then [] else EscapeChar(s[0]) + EscapeAll(s[1..])
  }

  /** `JSON.stringify` of `null` or of a string; the text is never empty. */
  function Encode(v: Option<string>): (text: string)
    ensures |text| > 0
  {
    match v
    case None => "null"
    case Some(s) => ['"'] + EscapeAll(s) + ['"']
  }

  /**
   * One character of a string literal's body, other than its closing quote:
   * the character it stands for and how many characters of `t` it takes. A raw
   * control character, an unknown escape, or a `\u` escape of a surrogate code
   * unit is refused.
   */
  function ParseUnit(t: string): (r: Option<(char, nat)>)
    requires t != []
    ensures r.Some? ==> 1 <= r.value.1 <= |t|
  {
    if t[0] == '\\' then
      if |t| < 2 then None
      else if t[1] == '"' then Some(('"', 2))
      else if t[1] == '\\' then Some(('\\', 2))
      else if t[1] == '/' then Some(('/', 2))
      else if t[1] == 'b' then Some((Backspace, 2))
      else if t[1] == 'f' then Some((FormFeed, 2))
      else if t[1] == 'n' then Some(('\n', 2))
      else if t[1] == 'r' then Some(('\r', 2))
      else if t[1] == 't' then Some(('\t', 2))
      else if t[1] == 'u' && |t| >= 6 then
        match (HexValue(t[2]), HexValue(t[3]), HexValue(t[4]), HexValue(t[5]))
        case (Some(a), Some(b), Some(c), Some(d)) =>
          var code := a * 4096 + b * 256 + c * 16 + d;
          if 0xD800 <= code < 0xE000 then None else Some((code as char, 6))
        case _ => None
      else None
    else if t[0] as int < 0x20 then None
    else Some((t[0], 1))
  }

  /** A string literal's body up to its closing quote: the string and what follows the quote. */
  function ParseStringBody(t: string): Option<(string, string)>
    decreases |t|
  {
    if t == [] then None
    else if t[0] == '"' then Some(([], t[1..]))
    else
      match ParseUnit(t)
      case None => None
      case Some((c, n)) =>
        match ParseStringBody(t[n..])
        case None => None
        case Some((body, rest)) => Some(([c] + body, rest))
  }

  function SkipWhitespace(t: string): (r: string)
    ensures |r| <= |t|
  {
    if t != [] && IsWhitespace(t[0]) then SkipWhitespace(t[1..]) else t
  }

  /**
   * `JSON.parse` for the two shapes a stored session value has: `null` or a
   * string literal, with surrounding whitespace. None stands for a parse error.
   */
  function Decode(text: string): Option<Option<string>> {
    var t := SkipWhitespace(text);
    if |t| >= 4 && t[..4] == "null" then
      if SkipWhitespace(t[4..]) == [] then Some(None) else None
    else if t != [] && t[0] == '"' then
      match ParseStringBody(t[1..])
      case None => None
      case Some((s, rest)) => if SkipWhitespace(rest) == [] then Some(Some(s)) else None
    else None
  }

  /** Every escape that `JSON.stringify` writes reads back as the character it stands for. */
  lemma ParseEscapeChar(c: char, tail: string)
    ensures ParseUnit(EscapeChar(c) + tail) == Some((c, |EscapeChar(c)|))
  {
    var e := EscapeChar(c);
    var t := e + tail;
    assert t[0] == e[0];
    if |e| >= 2 {
      assert t[1] == e[1];
    }
    if c != '"' && c != '\\' && c != Backspace && c != '\t' && c != '\n' && c != FormFeed && c != '\r'
       && c as int < 0x20 {
      var hi, lo := c as int / 16, c as int % 16;
      assert t[2] == '0' && t[3] == '0' && t[4] == HexDigit(hi) && t[5] == HexDigit(lo);
      HexRoundTrip(hi);
      HexRoundTrip(lo);
    }
  }

  /** The escaped text of `s` followed by a closing quote reads back as `s`. */
  lemma {:induction false} ParseEscapeAll(s: string, rest: string)
    ensures ParseStringBody(EscapeAll(s) + ['"'] + rest) == Some((s, rest))
  {
    var t := EscapeAll(s) + ['"'] + rest;
    if s == [] {
      assert t == ['"'] + rest;
    } else {
      var e := EscapeChar(s[0]);
      var t' := EscapeAll(s[1..]) + ['"'] + rest;
      assert t == e + t';
      ParseEscapeChar(s[0], t');
      assert t[|e|..] == t';
      ParseEscapeAll(s[1..], rest);
      assert [s[0]] + s[1..] == s;
    }
  }

  lemma DecodeNull()
    ensures Decode("null") == Some(None)
  {
    assert SkipWhitespace("null") == "null";
    assert "null"[..4] == "null" && "null"[4..] == [];
  }

  lemma DecodeQuoted(s: string)
    ensures Decode(['"'] + EscapeAll(s) + ['"']) == Some(Some(s))
  {
    var text := ['"'] + EscapeAll(s) + ['"'];
    assert SkipWhitespace(text) == text;
    assert |text| >= 4 ==> text[..4][0] == '"';
    assert text[1..] == EscapeAll(s) + ['"'] + [];
    ParseEscapeAll(s, []);
  }

  /** Reading back what `JSON.stringify` wrote gives the original value. */
  lemma DecodeEncode(v: Option<string>)
    ensures Decode(Encode(v)) == Some(v)
  {
    match v
    case None => DecodeNull();
    case Some(s) => DecodeQuoted(s);
  }
}
