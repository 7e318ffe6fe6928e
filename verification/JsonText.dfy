/** JSON values, and JSON strings as `encoding/json` writes and reads them
    (section 7 of RFC 8259). */
module JsonText {
  import opened Text

  /** A decoded JSON value. Numbers keep their text; objects have no order. */
  datatype Json =
    | Null
    | Bool(flag: bool)
    | Number(text: string)
    | Str(chars: string)
    | Array(items: seq<Json>)
    | Object(fields: map<string, Json>)

  // ---- writing strings ------------------------------------------------------

  function HexDigit(d: nat): (c: char)
    requires d < 16
    ensures HexValue(c) == Some(d)
  {
    if d < 10 then DigitChar(d) else ('a' as int + (d - 10)) as char
  }

  function HexValue(c: char): Option<nat> {
    if '0' <= c <= '9' then Some(c as int - '0' as int)
    else if 'a' <= c <= 'f' then Some(10 + c as int - 'a' as int)
    else if 'A' <= c <= 'F' then Some(10 + c as int - 'A' as int)
    else None
  }

  function HexEscape(n: nat): string
    requires n < 0x10000
  {
    "\\u" + [HexDigit(n / 4096), HexDigit(n / 256 % 16), HexDigit(n / 16 % 16), HexDigit(n % 16)]
  }

  /** `json.Marshal` of one character: short escapes, then `\u` for the other
      controls, for HTML punctuation and for the two line separators. */
  function Escape(c: char): string {
    if c == '"' then "\\\""
    else if c == '\\' then "\\\\"
    else if c as int == 8 then "\\b"
    else if c as int == 12 then "\\f"
    else if c == '\n' then "\\n"
    else if c == '\r' then "\\r"
    else if c == '\t' then "\\t"
    else if c as int < 0x20 || c in "<>&" || c as int == 0x2028 || c as int == 0x2029 then HexEscape(c as int)
    else [c]
  }

  function Escaped(s: string): string {
    if s == [] then "" else Escape(s[0]) + Escaped(s[1..])
  }

  function Quote(s: string): string { "\"" + Escaped(s) + "\"" }

  // ---- reading strings ------------------------------------------------------

  /** Four hexadecimal digits at position `i`. */
  function ReadHex(t: string, i: nat): Option<nat> {
    if i + 4 > |t| then None
    else
      match (HexValue(t[i]), HexValue(t[i + 1]), HexValue(t[i + 2]), HexValue(t[i + 3]))
      case (Some(a), Some(b), Some(c), Some(d)) => Some(4096 * a + 256 * b + 16 * c + d)
      case _ => None
  }

  datatype Piece = Piece(c: char, length: nat)

  /** The character that starts `t`, inside a string, and how much text it took.
      Lone surrogates read as U+FFFD. */
  function ReadChar(t: string): (p: Option<Piece>)
    ensures p.Some? ==> 0 < p.value.length <= |t|
  {
    if t == [] || t[0] == '"' || t[0] as int < 0x20 then None
    else if t[0] != '\\' then Some(Piece(t[0], 1))
    else if |t| < 2 then None
    else if t[1] in "\"\\/" then Some(Piece(t[1], 2))
    else if t[1] == 'b' then Some(Piece(8 as char, 2))
    else if t[1] == 'f' then Some(Piece(12 as char, 2))
    else if t[1] == 'n' then Some(Piece('\n', 2))
    else if t[1] == 'r' then Some(Piece('\r', 2))
    else if t[1] == 't' then Some(Piece('\t', 2))
    else if t[1] != 'u' then None
    else
      match ReadHex(t, 2)
      case None => None
      case Some(n) =>
        if 0xD800 <= n < 0xDC00 && |t| >= 12 && t[6] == '\\' && t[7] == 'u' && ReadHex(t, 8).Some?
           && 0xDC00 <= ReadHex(t, 8).value < 0xE000
        then Some(Piece((0x10000 + (n - 0xD800) * 1024 + (ReadHex(t, 8).value - 0xDC00)) as char, 12))
        else if 0xD800 <= n < 0xE000 then Some(Piece(0xFFFD as char, 6))
        else if n < 0x10000 then Some(Piece(n as char, 6))
        else None
  }

  datatype Read = Read(chars: string, rest: string)

  /** The characters up to the closing quote, and the text after it. */
  function ReadChars(t: string): Option<Read> {
    if t != [] && t[0] == '"' then Some(Read("", t[1..]))
    else
      match ReadChar(t)
      case None => None
      case Some(p) =>
        match ReadChars(t[p.length..])
        case None => None
        case Some(r) => Some(Read([p.c] + r.chars, r.rest))
  }

  /** `json.Unmarshal` of a text that is exactly one string. */
  function Unquote(t: string): Option<string> {
    if t == [] || t[0] != '"' then None
    else
      match ReadChars(t[1..])
      case Some(r) => if r.rest == [] then Some(r.chars) else None
      case None => None
  }

  // ---- reading undoes writing -------------------------------------------------

  lemma {:induction false} HexDigits(n: nat)
    requires n < 0x10000
    ensures 4096 * (n / 4096) + 256 * (n / 256 % 16) + 16 * (n / 16 % 16) + n % 16 == n && n / 4096 < 16
  {
  }

  lemma {:induction false} ReadHexEscape(n: nat, rest: string)
    requires n < 0x10000
    ensures ReadHex(HexEscape(n) + rest, 2) == Some(n)
  {
    hide HexDigit, HexValue;
    HexDigits(n);
    var a, b, c, d := n / 4096, n / 256 % 16, n / 16 % 16, n % 16;
    var t := HexEscape(n) + rest;
    assert t[2] == HexDigit(a) && t[3] == HexDigit(b) && t[4] == HexDigit(c) && t[5] == HexDigit(d);
  }

  lemma {:induction false} ReadEscape(c: char, rest: string)
    ensures Escape(c) != [] && Escape(c)[0] != '"'
    ensures ReadChar(Escape(c) + rest) == Some(Piece(c, |Escape(c)|))
  {
    var t := Escape(c) + rest;
    assert t[0] == Escape(c)[0];
    if |Escape(c)| == 6 {
      ReadHexEscape(c as int, rest);
    } else if |Escape(c)| == 2 {
      assert t[1] == Escape(c)[1];
    }
  }

  lemma {:induction false} ReadEscaped(s: string, rest: string)
    ensures ReadChars(Escaped(s) + "\"" + rest) == Some(Read(s, rest))
  {
    var t := Escaped(s) + "\"" + rest;
    if s == [] {
      assert t[1..] == rest;
    } else {
      var tail := Escaped(s[1..]) + "\"" + rest;
      assert t == Escape(s[0]) + tail;
      ReadEscape(s[0], tail);
      assert t[|Escape(s[0])|..] == tail;
      ReadEscaped(s[1..], rest);
      assert [s[0]] + s[1..] == s;
    }
  }

  /** Any string survives quoting and unquoting. */
  lemma {:induction false} UnquoteQuote(s: string)
    ensures Unquote(Quote(s)) == Some(s)
  {
    assert Quote(s)[1..] == Escaped(s) + "\"" + "";
    ReadEscaped(s, "");
  }

  /** A quoted string ends where it says: two texts that start with quoted
      strings start with the same one, and continue alike. */
  lemma {:induction false} QuoteReadable(a: string, s: string, b: string, t: string)
    requires Quote(a) + s == Quote(b) + t
    ensures a == b && s == t
  {
    hide Escaped, ReadChars;
    assert (Quote(a) + s)[1..] == Escaped(a) + "\"" + s;
    assert (Quote(b) + t)[1..] == Escaped(b) + "\"" + t;
    ReadEscaped(a, s);
    ReadEscaped(b, t);
  }
}
