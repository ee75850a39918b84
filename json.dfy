/** JSON strings as Python's `json.dumps` writes them with its defaults
    (`ensure_ascii=True`), and the reading of a JSON string back, as the
    JSON standard (RFC 8259, section 7) defines it. */
module Json {
  import opened Common

  // ---------------------------------------------------------------------------
  // Hexadecimal digits

  /** The lower-case hexadecimal digit of `d`. */
  function HexDigit(d: nat): (c: char)
    requires d < 16
    ensures '0' <= c <= 'f'
  {
    "0123456789abcdef"[d]
  }

  /** The value of a hexadecimal digit of either case. */
  function HexValue(c: char): (r: Option<nat>)
    ensures r.Some? ==> r.value < 16
  {
    if '0' <= c <= '9' then Some(c as nat - '0' as nat)
    else if 'a' <= c <= 'f' then Some(c as nat - 'a' as nat + 10)
    else if 'A' <= c <= 'F' then Some(c as nat - 'A' as nat + 10)
    else None
  }

  lemma HexValueOfDigit(d: nat)
    requires d < 16
    ensures HexValue(HexDigit(d)) == Some(d)
  {
  }

  /** Four lower-case hexadecimal digits, most significant first. */
  function Hex4(n: nat): (r: string)
    requires n < 0x10000
    ensures |r| == 4 && forall i :: 0 <= i < 4 ==> Printable(r[i])
  {
    [HexDigit(n / 0x1000), HexDigit(n / 0x100 % 0x10), HexDigit(n / 0x10 % 0x10), HexDigit(n % 0x10)]
  }

  /** The value of four hexadecimal digits. */
  function Hex4Value(s: string): (r: Option<nat>)
    requires |s| == 4
    ensures r.Some? ==> r.value < 0x10000
  {
    match (HexValue(s[0]), HexValue(s[1]), HexValue(s[2]), HexValue(s[3]))
    case (Some(a), Some(b), Some(c), Some(d)) => Some(a * 0x1000 + b * 0x100 + c * 0x10 + d)
    case _ => None
  }

  lemma DigitsOf(n: nat)
    requires n < 0x10000
    ensures n / 0x1000 < 0x10
    ensures n == (n / 0x1000) * 0x1000 + (n / 0x100 % 0x10) * 0x100 + (n / 0x10 % 0x10) * 0x10 + n % 0x10
  {
    assert n == (n / 0x10) * 0x10 + n % 0x10;
    var m := n / 0x10;
    assert m == (m / 0x10) * 0x10 + m % 0x10;
    assert m / 0x10 == n / 0x100;
    var k := n / 0x100;
    assert k == (k / 0x10) * 0x10 + k % 0x10;
    assert k / 0x10 == n / 0x1000;
  }

  /** Reading the four digits back gives the number. */
  lemma Hex4RoundTrip(n: nat)
    requires n < 0x10000
    ensures Hex4Value(Hex4(n)) == Some(n)
  {
    DigitsOf(n);
    var h := Hex4(n);
    HexValueOfDigit(n / 0x1000);
    HexValueOfDigit(n / 0x100 % 0x10);
    HexValueOfDigit(n / 0x10 % 0x10);
    HexValueOfDigit(n % 0x10);
  }

  // ---------------------------------------------------------------------------
  // Writing

  /** The two-character escapes of the encoder, by the character escaped. */
  function ShortEscape(c: char): Option<char> {
    if c == '"' then Some('"')
    else if c == '\\' then Some('\\')
    else if c == '\n' then Some('n')
    else if c == '\r' then Some('r')
    else if c == '\t' then Some('t')
    else if c == '\U{0008}' then Some('b')
    else if c == '\U{000C}' then Some('f')
    else None
  }

  /** Printable ASCII: what the encoder writes as itself, the quote and the
      backslash aside. */
  predicate Printable(c: char) {
    ' ' <= c <= '~'
  }

  /** The encoding of one character: a short escape, the character itself
      when it is printable ASCII, `\uXXXX` below U+10000, and a UTF-16
      surrogate pair of `\uXXXX` escapes above. */
  function EscapeChar(c: char): (r: string)
    ensures |r| > 0 && forall i :: 0 <= i < |r| ==> Printable(r[i])
  {
    match ShortEscape(c)
    case Some(e) => ['\\', e]
    case None =>
      if Printable(c) then [c]
      else if c as int < 0x10000 then UnicodeEscape(c as int)
      else
        var v := c as int - 0x10000;
        UnicodeEscape(0xD800 + v / 0x400) + UnicodeEscape(0xDC00 + v % 0x400)
  }

  /** `\uXXXX`. */
  function UnicodeEscape(n: nat): (r: string)
    requires n < 0x10000
    ensures |r| == 6 && forall i :: 0 <= i < 6 ==> Printable(r[i])
  {
    var h := Hex4(n);
    ['\\', 'u', h[0], h[1], h[2], h[3]]
  }

  /** The characters of a string, each encoded. */
  function Escape(s: string): (r: string)
    ensures forall i :: 0 <= i < |r| ==> Printable(r[i])
    decreases |s|
  {
    if s == [] then ""
    else
      var head := EscapeChar(s[0]);
      var rest := Escape(s[1..]);
      assert forall i :: |head| <= i < |head + rest| ==> (head + rest)[i] == rest[i - |head|];
      head + rest
  }

  /** A JSON string literal. */
  function Quote(s: string): (r: string)
    ensures forall i :: 0 <= i < |r| ==> Printable(r[i])
  {
    "\"" + Escape(s) + "\""
  }

  /** In particular an encoded string has no line break. */
  lemma QuoteHasNoBreak(s: string)
    ensures '\n' !in Quote(s) && '\r' !in Quote(s)
  {
    var q := Quote(s);
    assert forall i :: 0 <= i < |q| ==> q[i] != '\n' && q[i] != '\r';
  }

  // ---------------------------------------------------------------------------
  // Reading

  /** The character a two-character escape stands for. */
  function Unshort(e: char): Option<char> {
    if e == '"' then Some('"')
    else if e == '\\' then Some('\\')
    else if e == '/' then Some('/')
    else if e == 'n' then Some('\n')
    else if e == 'r' then Some('\r')
    else if e == 't' then Some('\t')
    else if e == 'b' then Some('\U{0008}')
    else if e == 'f' then Some('\U{000C}')
    else None
  }

  function Prepend(c: char, r: Option<string>): Option<string> {
    if r.None? then None else Some([c] + r.value)
  }

  /** A surrogate pair `\uHHHH\uLLLL` at the front of `t`, as the code point
      it stands for. */
  function PairAt(t: string): Option<char> {
    if |t| < 12 || t[0] != '\\' || t[1] != 'u' || t[6] != '\\' || t[7] != 'u' then None
    else
      match (Hex4Value(t[2..6]), Hex4Value(t[8..12]))
      case (Some(hi), Some(lo)) =>
        if 0xD800 <= hi < 0xDC00 && 0xDC00 <= lo < 0xE000 then
          Some((0x10000 + (hi - 0xD800) * 0x400 + (lo - 0xDC00)) as char)
        else None
      case _ => None
  }

  /** The characters encoded by the body of a JSON string literal, or None
      when it is malformed. A lone surrogate escape is refused: it is not a
      character. */
  function Unescape(t: string): Option<string>
    decreases |t|
  {
    if t == [] then Some("")
    else if t[0] == '"' || t[0] < ' ' then None
    else if t[0] != '\\' then Prepend(t[0], Unescape(t[1..]))
    else if |t| < 2 then None
    else if t[1] != 'u' then
      match Unshort(t[1])
      case None => None
      case Some(c) => Prepend(c, Unescape(t[2..]))
    else if PairAt(t).Some? then Prepend(PairAt(t).value, Unescape(t[12..]))
    else if |t| < 6 then None
    else
      match Hex4Value(t[2..6])
      case None => None
      case Some(u) => if 0xD800 <= u < 0xE000 then None else Prepend(u as char, Unescape(t[6..]))
  }

  lemma UnescapeBmp(n: nat, rest: string)
    requires n < 0x10000 && !(0xD800 <= n < 0xE000)
    ensures Unescape(UnicodeEscape(n) + rest) == Prepend(n as char, Unescape(rest))
  {
    var t := UnicodeEscape(n) + rest;
    Hex4RoundTrip(n);
    assert t[2..6] == Hex4(n) && t[6..] == rest;
    assert t[0] == '\\' && t[1] == 'u';
    if |t| >= 12 && t[6] == '\\' && t[7] == 'u' {
      assert Hex4Value(t[2..6]) == Some(n);
    }
    assert PairAt(t).None?;
  }

  lemma UnescapePair(c: char, rest: string)
    requires c as int >= 0x10000
    ensures var v := c as int - 0x10000;
      Unescape(UnicodeEscape(0xD800 + v / 0x400) + UnicodeEscape(0xDC00 + v % 0x400) + rest)
        == Prepend(c, Unescape(rest))
  {
    var v := c as int - 0x10000;
    var hi := 0xD800 + v / 0x400;
    var lo := 0xDC00 + v % 0x400;
    var t := UnicodeEscape(hi) + UnicodeEscape(lo) + rest;
    Hex4RoundTrip(hi);
    Hex4RoundTrip(lo);
    assert t[2..6] == Hex4(hi) && t[8..12] == Hex4(lo) && t[12..] == rest;
    assert t[0] == '\\' && t[1] == 'u' && t[6] == '\\' && t[7] == 'u';
    assert v == (v / 0x400) * 0x400 + v % 0x400;
    assert PairAt(t) == Some(c);
  }

  /** Reading one encoded character back. */
  lemma UnescapeChar(c: char, rest: string)
    ensures Unescape(EscapeChar(c) + rest) == Prepend(c, Unescape(rest))
  {
    var t := EscapeChar(c) + rest;
    if ShortEscape(c).Some? {
      assert t[2..] == rest;
    } else if Printable(c) {
      assert t[1..] == rest;
    } else if c as int < 0x10000 {
      UnescapeBmp(c as int, rest);
    } else {
      UnescapePair(c, rest);
    }
  }

  /** Reading an encoded string back gives the string. */
  lemma {:induction false} UnescapeEscape(s: string)
    ensures Unescape(Escape(s)) == Some(s)
    decreases |s|
  {
    if s != [] {
      UnescapeEscape(s[1..]);
      UnescapeChar(s[0], Escape(s[1..]));
      assert [s[0]] + s[1..] == s;
    }
  }

  /** Reading a JSON string literal. */
  function Unquote(q: string): Option<string> {
    if |q| < 2 || q[0] != '"' || q[|q| - 1] != '"' then None else Unescape(q[1..|q| - 1])
  }

  /** The literal written for a string reads back as that string. */
  lemma UnquoteQuote(s: string)
    ensures Unquote(Quote(s)) == Some(s)
  {
    var q := Quote(s);
    assert q[1..|q| - 1] == Escape(s);
    UnescapeEscape(s);
  }
}
