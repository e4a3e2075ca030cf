/** The text `json.dumps` writes for a string, with its default `ensure_ascii`:
    quote and backslash are escaped, the five control characters with a short
    escape get it, every other character outside space..tilde becomes `\uXXXX`
    in lower-case hexadecimal, and a character beyond U+FFFF becomes a UTF-16
    surrogate pair of two such escapes. `Unescape` reads string escapes as
    section 7 of RFC 8259 defines them; `UnescapeEscape` proves it recovers
    every string `Escape` writes.
 */
module JsonText {
  import opened Py

  /** Printable ASCII, the only characters `Escape` writes. */
  predicate Printable(c: char) {
    ' ' <= c <= '~'
  }

  /** Text made of ASCII characters only, whose UTF-8 bytes are its codes. */
  predicate Ascii(s: string) {
    forall i :: 0 <= i < |s| ==> s[i] as int < 128
  }

  function HexDigit(d: int): (c: char)
    requires 0 <= d < 16
    ensures Printable(c)
  {
    if d < 10 then (48 + d) as char else (87 + d) as char
  }

  /** The value of a hexadecimal digit of either case. */
  function HexValue(c: char): (r: Option<int>)
    ensures r.Some? ==> 0 <= r.value < 16
  {
    if '0' <= c <= '9' then Some(c as int - 48)
    else if 'a' <= c <= 'f' then Some(c as int - 87)
    else if 'A' <= c <= 'F' then Some(c as int - 55)
    else None
  }

  /** Four lower-case hexadecimal digits, most significant first. */
  function Hex4(n: int): (h: string)
    requires 0 <= n < 0x1_0000
    ensures |h| == 4
  {
    var low12 := n % 0x1000;
    var low8 := low12 % 0x100;
    [HexDigit(n / 0x1000), HexDigit(low12 / 0x100), HexDigit(low8 / 16), HexDigit(low8 % 16)]
  }

  function ParseHex4(h: string): (r: Option<int>)
    requires |h| == 4
    ensures r.Some? ==> 0 <= r.value < 0x1_0000
  {
    match (HexValue(h[0]), HexValue(h[1]), HexValue(h[2]), HexValue(h[3]))
    case (Some(a), Some(b), Some(c), Some(d)) => Some(a * 0x1000 + b * 0x100 + c * 16 + d)
    case _ => None
  }

  lemma HexDigitValue(d: int)
    requires 0 <= d < 16
    ensures HexValue(HexDigit(d)) == Some(d)
  {
  }

  lemma ParseHex4Hex4(n: int)
    requires 0 <= n < 0x1_0000
    ensures ParseHex4(Hex4(n)) == Some(n)
  {
    var low12 := n % 0x1000;
    var low8 := low12 % 0x100;
    HexDigitValue(n / 0x1000);
    HexDigitValue(low12 / 0x100);
    HexDigitValue(low8 / 16);
    HexDigitValue(low8 % 16);
    assert n == n / 0x1000 * 0x1000 + low12;
    assert low12 == low12 / 0x100 * 0x100 + low8;
    assert low8 == low8 / 16 * 16 + low8 % 16;
  }

  /** `\uXXXX` for one UTF-16 code unit. */
  function UnitEscape(u: int): (e: string)
    requires 0 <= u < 0x1_0000
    ensures |e| == 6
  {
    ['\\', 'u'] + Hex4(u)
  }

  /** The escape `json.dumps` writes for one character. */
  function EscapeChar(c: char): (e: string)
    ensures e != []
    ensures forall i :: 0 <= i < |e| ==> Printable(e[i])
  {
    if c == '"' then ['\\', '"']
    else if c == '\\' then ['\\', '\\']
    else if c == '\n' then ['\\', 'n']
    else if c == '\r' then ['\\', 'r']
    else if c == '\t' then ['\\', 't']
    else if c == 8 as char then ['\\', 'b']
    else if c == 12 as char then ['\\', 'f']
    else if Printable(c) then [c]
    else if c as int < 0x1_0000 then UnitEscape(c as int)
    else
      var n := c as int - 0x1_0000;
      UnitEscape(0xD800 + n / 0x400) + UnitEscape(0xDC00 + n % 0x400)
  }

  /** The body of the string literal `json.dumps(s)` writes, without its quotes. */
  function Escape(s: string): (e: string)
    ensures forall i :: 0 <= i < |e| ==> Printable(e[i])
    ensures |s| <= |e|
  {
    if s == [] then [] else EscapeChar(s[0]) + Escape(s[1..])
  }

  /** The character a one-letter escape `\x` stands for. */
  function ShortEscape(x: char): Option<char> {
    if x == '"' then Some('"')
    else if x == '\\' then Some('\\')
    else if x == '/' then Some('/')
    else if x == 'b' then Some(8 as char)
    else if x == 'f' then Some(12 as char)
    else if x == 'n' then Some('\n')
    else if x == 'r' then Some('\r')
    else if x == 't' then Some('\t')
    else None
  }

  function Prepend(c: char, rest: Option<string>): Option<string> {
    match rest
    case Some(t) => Some([c] + t)
    case None => None
  }

  /** The characters a JSON string literal body denotes, or None when it is not a
      valid body (a bare quote or control character, a broken escape, or a
      surrogate code unit without its partner). */
  function Unescape(e: string): Option<string>
    decreases |e|
  {
    if e == [] then Some([])
    else if e[0] != '\\' then
      if e[0] == '"' || e[0] < ' ' then None else Prepend(e[0], Unescape(e[1..]))
    else if |e| < 2 then None
    else if e[1] != 'u' then
      match ShortEscape(e[1])
      case Some(c) => Prepend(c, Unescape(e[2..]))
      case None => None
    else if |e| < 6 then None
    else
      match ParseHex4(e[2..6])
      case None => None
      case Some(u) =>
        if 0xDC00 <= u < 0xE000 then None
        else if u < 0xD800 || 0xE000 <= u then Prepend(u as char, Unescape(e[6..]))
        else if |e| < 12 || e[6] != '\\' || e[7] != 'u' then None
        else
          match ParseHex4(e[8..12])
          case Some(v) =>
            if 0xDC00 <= v < 0xE000
            then Prepend((0x1_0000 + (u - 0xD800) * 0x400 + (v - 0xDC00)) as char, Unescape(e[12..]))
            else None
          case None => None
  }

  /** Reading one character's escape consumes exactly that escape, whatever
      follows it. */
  lemma UnescapeEscapeChar(c: char, rest: string)
    ensures Unescape(EscapeChar(c) + rest) == Prepend(c, Unescape(rest))
  {
    var e := EscapeChar(c) + rest;
    if c == '"' || c == '\\' || c == '\n' || c == '\r' || c == '\t' || c == 8 as char || c == 12 as char {
      assert e[2..] == rest;
    } else if Printable(c) {
      assert e[1..] == rest;
    } else if c as int < 0x1_0000 {
      ParseHex4Hex4(c as int);
      assert e[2..6] == Hex4(c as int);
      assert e[6..] == rest;
      assert (c as int) as char == c;
    } else {
      var n := c as int - 0x1_0000;
      var hi := 0xD800 + n / 0x400;
      var lo := 0xDC00 + n % 0x400;
      ParseHex4Hex4(hi);
      ParseHex4Hex4(lo);
      assert e == UnitEscape(hi) + UnitEscape(lo) + rest;
      assert e[2..6] == Hex4(hi);
      assert e[6] == '\\' && e[7] == 'u';
      assert e[8..12] == Hex4(lo);
      assert e[12..] == rest;
      assert 0x1_0000 + (hi - 0xD800) * 0x400 + (lo - 0xDC00) == c as int;
    }
  }

  /** Decoding what `Escape` writes gives back the original string. */
  lemma {:induction false} UnescapeEscape(s: string)
    ensures Unescape(Escape(s)) == Some(s)
    decreases |s|
  {
    if s != [] {
      UnescapeEscapeChar(s[0], Escape(s[1..]));
      UnescapeEscape(s[1..]);
      assert s == [s[0]] + s[1..];
    }
  }

  /** The quoted literal `json.dumps(s)` writes. */
  function Quote(s: string): (q: string)
    ensures |q| >= 2 && q[0] == '"' && q[|q| - 1] == '"'
    ensures Unescape(q[1..|q| - 1]) == Some(s)
    ensures Ascii(q)
  {
    var q := ['"'] + Escape(s) + ['"'];
    assert q[1..|q| - 1] == Escape(s);
    UnescapeEscape(s);
    q
  }
}
