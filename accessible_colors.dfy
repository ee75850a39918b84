/** `getContrastText`: the text colour for a background colour string. The
    first '#' is removed, three two-character channels are read with
    `parseInt(…, 16)`, and dark text is chosen when the weighted luminance
    exceeds one half. The luminance test is done in exact integers
    (299r + 587g + 114b > 127500) rather than in binary floating point. */
module AccessibleColors {
  import opened Common

  const DarkText := "#1a1a1a"
  const LightText := "#ffffff"

  /** `s.replace('#', '')`: only the first '#' goes. */
  function StripHash(s: string): (r: string)
    ensures '#' !in s ==> r == s
    ensures s != [] && s[0] == '#' ==> r == s[1..]
  {
    match IndexOf(s, '#')
    case None => s
    case Some(i) => s[..i] + s[i + 1..]
  }

  /** `s.substr(start, length)` for a start and length that are not
      negative: the characters from `start`, at most `length` of them. */
  function Substr(s: string, start: nat, length: nat): (r: string)
    ensures |r| <= length
  {
    if start >= |s| then "" else if start + length >= |s| then s[start..] else s[start..start + length]
  }

  predicate IsHex(c: char) {
    '0' <= c <= '9' || 'a' <= c <= 'f' || 'A' <= c <= 'F'
  }

  /** The value of a hexadecimal digit (0 for any other character). */
  function DigitValue(c: char): (v: nat)
    ensures v < 16
    ensures IsHex(c) && c != '0' ==> v > 0
  {
    if '0' <= c <= '9' then c as int - '0' as int
    else if 'a' <= c <= 'f' then c as int - 'a' as int + 10
    else if 'A' <= c <= 'F' then c as int - 'A' as int + 10
    else 0
  }

  /** The hexadecimal digits at the front of `s`. */
  function HexPrefix(s: string): (r: string)
    ensures |r| <= |s|
  {
    if s != [] && IsHex(s[0]) then [s[0]] + HexPrefix(s[1..]) else ""
  }

  /** It is the longest prefix of `s` made of hexadecimal digits. */
  lemma {:induction false} HexPrefixSpec(s: string)
    ensures var r := HexPrefix(s);
      r == s[..|r|] && (forall i :: 0 <= i < |r| ==> IsHex(r[i])) && (|r| < |s| ==> !IsHex(s[|r|]))
  {
    if s != [] && IsHex(s[0]) {
      HexPrefixSpec(s[1..]);
      var r := HexPrefix(s);
      assert r == [s[0]] + HexPrefix(s[1..]);
      assert forall i :: 1 <= i < |r| ==> r[i] == HexPrefix(s[1..])[i - 1];
    }
  }

  /** The value of a string of hexadecimal digits, most significant first. */
  function HexValue(digits: string): nat
    decreases |digits|
  {
    if digits == [] then 0
    else 16 * HexValue(digits[..|digits| - 1]) + DigitValue(digits[|digits| - 1])
  }

  /** What is left after an optional sign. */
  function Unsigned(t: string): string {
    if t != [] && (t[0] == '-' || t[0] == '+') then t[1..] else t
  }

  /** What is left after an optional "0x" or "0X". */
  function WithoutPrefix(u: string): string {
    if |u| >= 2 && u[0] == '0' && (u[1] == 'x' || u[1] == 'X') then u[2..] else u
  }

  /** `parseInt(s, 16)`: leading whitespace, then an optional sign, then an
      optional "0x" or "0X", then the longest run of hexadecimal digits;
      None (NaN) when there is none. */
  function ParseHex(s: string): Option<int> {
    var t := TrimLeft(Js, s);
    var digits := HexPrefix(WithoutPrefix(Unsigned(t)));
    if digits == [] then None
    else if t[0] == '-' then Some(-(HexValue(digits) as int))
    else Some(HexValue(digits))
  }

  /** The three channels: characters 0-1, 2-3 and 4-5 after the '#'. */
  function Channels(background: string): (Option<int>, Option<int>, Option<int>) {
    var hex := StripHash(background);
    (ParseHex(Substr(hex, 0, 2)), ParseHex(Substr(hex, 2, 2)), ParseHex(Substr(hex, 4, 2)))
  }

  /** The luminance test on three channels; a NaN channel makes the
      comparison false. */
  predicate Bright(r: Option<int>, g: Option<int>, b: Option<int>) {
    r.Some? && g.Some? && b.Some? && 299 * r.value + 587 * g.value + 114 * b.value > 127500
  }

  function ContrastText(background: string): string {
    var (r, g, b) := Channels(background);
    if Bright(r, g, b) then DarkText else LightText
  }

  /** A text that starts with a digit and not with "0x" or "0X" is read
      from its first character: its leading digits give the value. */
  lemma ParseDigits(s: string)
    requires s != [] && IsHex(s[0])
    requires !(|s| >= 2 && s[0] == '0' && (s[1] == 'x' || s[1] == 'X'))
    ensures ParseHex(s) == Some(HexValue(HexPrefix(s)))
  {
    HexIsNotSpace(s[0]);
    TrimLeftKeeps(Js, s);
    assert Unsigned(s) == s;
    assert WithoutPrefix(s) == s;
    assert HexPrefix(s) != [];
  }

  lemma HexIsNotSpace(c: char)
    requires IsHex(c)
    ensures !IsSpace(Js, c) && c != '-' && c != '+'
  {
  }

  /** A text that starts with a character that is neither whitespace, a
      sign nor a digit is NaN. */
  lemma ParseNaN(s: string)
    requires s != [] && !IsHex(s[0]) && !IsSpace(Js, s[0]) && s[0] != '-' && s[0] != '+'
    ensures ParseHex(s).None?
  {
    TrimLeftKeeps(Js, s);
    assert Unsigned(s) == s;
    assert WithoutPrefix(s) == s;
    assert HexPrefix(s) == "";
  }

  /** The byte written with the two hexadecimal digits `hi` and `lo`. */
  function Byte(hi: char, lo: char): (v: nat)
    ensures v <= 255
  {
    16 * DigitValue(hi) + DigitValue(lo)
  }

  /** Two hexadecimal digits read as their byte value. */
  lemma TwoDigits(s: string)
    requires |s| == 2 && IsHex(s[0]) && IsHex(s[1])
    ensures ParseHex(s) == Some(Byte(s[0], s[1]) as int)
  {
    ParseDigits(s);
    TwoDigitPrefix(s);
    TwoDigitValue(s);
  }

  lemma TwoDigitPrefix(s: string)
    requires |s| == 2 && IsHex(s[0]) && IsHex(s[1])
    ensures HexPrefix(s) == s
  {
    assert HexPrefix(s[1..]) == s[1..] by { assert HexPrefix(s[1..][1..]) == ""; }
  }

  lemma TwoDigitValue(s: string)
    requires |s| == 2
    ensures HexValue(s) == Byte(s[0], s[1])
  {
    assert s[..1] == [s[0]];
    assert HexValue([s[0]]) == DigitValue(s[0]) by { assert [s[0]][..0] == []; }
  }

  predicate SixHex(h: string) {
    |h| == 6 && forall k :: 0 <= k < 6 ==> IsHex(h[k])
  }

  /** The byte value of the channel at `i` of a six-digit colour. */
  function Channel(h: string, i: nat): (v: nat)
    requires |h| == 6 && i < 3
    ensures v <= 255
  {
    Byte(h[2 * i], h[2 * i + 1])
  }

  lemma ChannelParses(h: string, i: nat)
    requires SixHex(h) && i < 3
    ensures ParseHex(Substr(h, 2 * i, 2)) == Some(Channel(h, i) as int)
  {
    var s := Substr(h, 2 * i, 2);
    assert |s| == 2 && s[0] == h[2 * i] && s[1] == h[2 * i + 1];
    assert IsHex(h[2 * i]) && IsHex(h[2 * i + 1]);
    TwoDigits(s);
  }

  /** For "#rrggbb" the channels are the three byte values, and the text
      is dark exactly when the weighted sum exceeds half of its maximum. */
  lemma ContrastSpec(h: string)
    requires SixHex(h)
    ensures Channels("#" + h) == (Some(Channel(h, 0) as int), Some(Channel(h, 1) as int), Some(Channel(h, 2) as int))
    ensures ContrastText("#" + h) == DarkText <==> 299 * Channel(h, 0) + 587 * Channel(h, 1) + 114 * Channel(h, 2) > 127500
  {
    HashedChannels(h);
  }

  lemma HashedChannels(h: string)
    requires SixHex(h)
    ensures Channels("#" + h) == (Some(Channel(h, 0) as int), Some(Channel(h, 1) as int), Some(Channel(h, 2) as int))
  {
    assert StripHash("#" + h) == h;
    ChannelParses(h, 0);
    ChannelParses(h, 1);
    ChannelParses(h, 2);
  }

  /** Making the channels of a colour brighter never turns dark text into
      white text. */
  lemma BrighterStaysDark(h: string, h2: string)
    requires SixHex(h) && SixHex(h2)
    requires Channel(h, 0) <= Channel(h2, 0) && Channel(h, 1) <= Channel(h2, 1) && Channel(h, 2) <= Channel(h2, 2)
    requires ContrastText("#" + h) == DarkText
    ensures ContrastText("#" + h2) == DarkText
  {
    ContrastSpec(h);
    ContrastSpec(h2);
  }

  /** A colour with no '#' is read the same way as with one. */
  lemma NoHash(h: string)
    requires SixHex(h)
    ensures ContrastText(h) == ContrastText("#" + h)
  {
    assert StripHash("#" + h) == h;
    assert StripHash(h) == h by { assert '#' !in h; }
    assert Channels(h) == Channels("#" + h);
  }

  /** A colour whose first channel does not parse (NaN), and the empty
      string, get white text. */
  lemma NotAColour(rest: string)
    requires |rest| >= 1 && !IsHex(rest[0]) && !IsSpace(Js, rest[0]) && rest[0] != '-' && rest[0] != '+'
    ensures ContrastText("#" + rest) == LightText
    ensures ContrastText("") == LightText
  {
    assert StripHash("#" + rest) == rest;
    var first := Substr(rest, 0, 2);
    assert first[0] == rest[0];
    ParseNaN(first);
    EmptyIsLight();
  }

  lemma EmptyIsLight()
    ensures ContrastText("") == LightText
  {
    assert StripHash("") == "";
    assert ParseHex("") == None;
  }
}
