/**
 * The one piece of JSON the key-value wrapper depends on: JSON.stringify applied
 * to a string value. The result is the string between double quotes, with the
 * quotation mark, the reverse solidus and the control characters escaped (the
 * ECMAScript QuoteJSONString operation, producing a string as in section 7 of
 * RFC 8259). Unquote is the matching decoder (what JSON.parse does to such a
 * text); the round trip Unquote(Quote(s)) == Some(s) is proved below.
 */
module Json {
  import opened Wrappers

  /** JSON.stringify(s) for a string s: a quoted text at least two characters longer than s. */
  function Quote(s: string): (q: string)
    ensures |q| >= |s| + 2 && q[0] == '"' && q[|q| - 1] == '"'
  {
    EscapeLength(s);
    "\"" + Escape(s) + "\""
  }

  /** The body of a quoted string: every character replaced by its escape. */
  function Escape(s: string): string
    decreases |s|
  {
    if s == [] then [] else EscapeChar(s[0]) + Escape(s[1..])
  }

  /** Lower-case hexadecimal digit, as QuoteJSONString writes it. */
  function HexDigit(n: nat): (c: char)
    requires n < 16
    ensures DigitValue(c) == Some(n)
  {
    if n < 10 then ('0' as int + n) as char else ('a' as int + n - 10) as char
  }

  /** The escape QuoteJSONString uses for one character. */
  function EscapeChar(c: char): (e: string)
    ensures |e| >= 1
  {
    if c == '"' then "\\\""
    else if c == '\\' then "\\\\"
    else if c as int == 0x08 then "\\b"
    else if c as int == 0x0C then "\\f"
    else if c == '\n' then "\\n"
    else if c == '\r' then "\\r"
    else if c == '\t' then "\\t"
    else if c as int < 0x20 then "\\u00" + [HexDigit(c as int / 16), HexDigit(c as int % 16)]
    else [c]
  }

  /** Value of one hexadecimal digit, either case. */
  function DigitValue(c: char): (r: Option<nat>)
    ensures r.Some? ==> r.value < 16
  {
    if '0' <= c <= '9' then Some(c as int - '0' as int)
    else if 'a' <= c <= 'f' then Some(c as int - 'a' as int + 10)
    else if 'A' <= c <= 'F' then Some(c as int - 'A' as int + 10)
    else None
  }

  /** Value of the four hexadecimal digits of a \uXXXX escape. */
  function Hex4(h: string): Option<nat>
    requires |h| == 4
  {
    match (DigitValue(h[0]), DigitValue(h[1]), DigitValue(h[2]), DigitValue(h[3]))
    case (Some(a), Some(b), Some(c), Some(d)) => Some(4096 * a + 256 * b + 16 * c + d)
    case _ => None
  }

  predicate IsScalar(v: nat)
  {
    v < 0xD800 || 0xE000 <= v < 0x11_0000
  }

  function Prepend(c: char, o: Option<string>): Option<string>
  {
    match o
    case None => None
    case Some(s) => Some([c] + s)
  }

  /** The character a two-character escape \e stands for, if e is one of JSON's. */
  function ShortEscape(e: char): Option<char>
  {
    if e == '"' || e == '\\' || e == '/' then Some(e)
    else if e == 'b' then Some(0x08 as char)
    else if e == 'f' then Some(0x0C as char)
    else if e == 'n' then Some('\n')
    else if e == 'r' then Some('\r')
    else if e == 't' then Some('\t')
    else None
  }

  /**
   * Decodes the body of a JSON string; None for a text JSON.parse rejects
   * (a bare quotation mark or control character, an unknown escape). A \u
   * escape naming half of a surrogate pair is rejected as well.
   */
  function Unescape(t: string): (r: Option<string>)
    ensures r.Some? ==> |r.value| <= |t|
    decreases |t|
  {
    if t == [] then Some([])
    else if t[0] == '\\' then
      if |t| < 2 then None
      else if t[1] == 'u' then
        if |t| < 6 then None
        else match Hex4(t[2..6])
          case None => None
          case Some(v) => if IsScalar(v) then Prepend(v as char, Unescape(t[6..])) else None
      else match ShortEscape(t[1])
        case None => None
        case Some(c) => Prepend(c, Unescape(t[2..]))
    else if t[0] == '"' || (t[0] as int) < 0x20 then None
    else Prepend(t[0], Unescape(t[1..]))
  }

  /** JSON.parse of a text that should hold one string value: only a quoted text decodes, to something shorter. */
  function Unquote(t: string): (r: Option<string>)
    ensures r.Some? ==> |t| >= 2 && t[0] == '"' && t[|t| - 1] == '"' && |r.value| <= |t| - 2
  {
    if |t| >= 2 && t[0] == '"' && t[|t| - 1] == '"' then Unescape(t[1..|t| - 1]) else None
  }

  lemma UnescapeEscapeChar(c: char, rest: string)
    ensures Unescape(EscapeChar(c) + rest) == Prepend(c, Unescape(rest))
  {
    var t := EscapeChar(c) + rest;
    if c as int < 0x20 && c != '\n' && c != '\r' && c != '\t' && c as int != 0x08 && c as int != 0x0C {
      var hi, lo := c as int / 16, c as int % 16;
      assert t[2..6] == ['0', '0', HexDigit(hi), HexDigit(lo)];
      assert Hex4(t[2..6]) == Some(16 * hi + lo);
      assert t[6..] == rest;
    } else if |EscapeChar(c)| == 2 {
      assert t[2..] == rest;
    } else {
      assert t[1..] == rest;
    }
  }

  /** Decoding undoes the escaping. */
  lemma {:induction false} UnescapeEscape(s: string)
    ensures Unescape(Escape(s)) == Some(s)
    decreases |s|
  {
    if s != [] {
      UnescapeEscapeChar(s[0], Escape(s[1..]));
      UnescapeEscape(s[1..]);
      assert [s[0]] + s[1..] == s;
    }
  }

  /** JSON.parse(JSON.stringify(s)) == s for every string s. */
  lemma UnquoteQuote(s: string)
    ensures Unquote(Quote(s)) == Some(s)
  {
    var t := Quote(s);
    assert t[1..|t| - 1] == Escape(s);
    UnescapeEscape(s);
  }

  /** Different strings are stored under different encodings. */
  lemma QuoteInjective(a: string, b: string)
    ensures Quote(a) == Quote(b) ==> a == b
  {
    UnquoteQuote(a);
    UnquoteQuote(b);
  }

  lemma {:induction false} EscapeLength(s: string)
    ensures |Escape(s)| >= |s|
    decreases |s|
  {
    if s != [] {
      EscapeLength(s[1..]);
    }
  }

  /** Encoding a string always changes it: it gains at least the two quotation marks. */
  lemma QuoteChanges(s: string)
    ensures |Quote(s)| >= |s| + 2
    ensures Quote(s) != s
  {
  }
}
