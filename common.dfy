/** Shared vocabulary: optional values, JSON fields, the whitespace sets of
    JavaScript and Python, trimming, ASCII case mapping, splitting and joining,
    decimal rendering of integers and the code-point order on strings. */
module Common {

  datatype Option<T> = None | Some(value: T)

  /** A value read from a parsed JSON object by key. `Missing` is an absent key,
      `Null` a key whose value is JSON null. */
  datatype Field = Missing | Null | Str(s: string) | Num(n: int)

  /** Python truthiness of a field: absent, null, "" and 0 are false. */
  predicate Truthy(f: Field) {
    match f
    case Missing => false
    case Null => false
    case Str(s) => s != ""
    case Num(n) => n != 0
  }

  /** Python `d.get(k, default)` when the default is a string: the default only
      replaces an absent key, never a null. */
  function GetOr(f: Field, default: string): (r: Field)
    ensures f.Missing? ==> r == Str(default)
    ensures !f.Missing? ==> r == f
  {
    if f.Missing? then Str(default) else f
  }

  /** JavaScript `x || d` for an optional string: `null`, `undefined` and ""
      are falsy and give `d`. */
  function OrElse(x: Option<string>, d: string): (r: string)
    ensures x.Some? && x.value != "" ==> r == x.value
    ensures x.None? || x.value == "" ==> r == d
  {
    if x.Some? && x.value != "" then x.value else d
  }

  // ---------------------------------------------------------------------------
  // Whitespace

  datatype SpaceKind = Js | Py

  /** `String.prototype.trim` in JavaScript strips WhiteSpace and LineTerminator;
      Python's `str.strip()` strips the characters for which `str.isspace()` holds. */
  predicate IsSpace(k: SpaceKind, c: char) {
    match k
    case Js =>
      c == '\t' || c == '\n' || c == '\U{000B}' || c == '\U{000C}' || c == '\r' || c == ' '
      || c == '\U{00A0}' || c == '\U{1680}' || ('\U{2000}' <= c <= '\U{200A}')
      || c == '\U{2028}' || c == '\U{2029}' || c == '\U{202F}' || c == '\U{205F}'
      || c == '\U{3000}' || c == '\U{FEFF}'
    case Py =>
      ('\t' <= c <= '\r') || ('\U{001C}' <= c <= '\U{001F}') || c == ' ' || c == '\U{0085}'
      || c == '\U{00A0}' || c == '\U{1680}' || ('\U{2000}' <= c <= '\U{200A}')
      || c == '\U{2028}' || c == '\U{2029}' || c == '\U{202F}' || c == '\U{205F}'
      || c == '\U{3000}'
  }

  /** Every character of `s` is whitespace (true of the empty string). */
  predicate Blank(k: SpaceKind, s: string) {
    forall i :: 0 <= i < |s| ==> IsSpace(k, s[i])
  }

  function TrimLeft(k: SpaceKind, s: string): (r: string)
    ensures |r| <= |s| && r == s[|s| - |r|..]
    ensures r != [] ==> !IsSpace(k, r[0])
    ensures forall i :: 0 <= i < |s| - |r| ==> IsSpace(k, s[i])
  {
    if s != [] && IsSpace(k, s[0]) then
      var r := TrimLeft(k, s[1..]);
      assert forall i :: 1 <= i < |s| - |r| ==> s[1..][i - 1] == s[i];
      r
    else s
  }

  function TrimRight(k: SpaceKind, s: string): (r: string)
    ensures |r| <= |s| && r == s[..|r|]
    ensures r != [] ==> !IsSpace(k, r[|r| - 1])
    ensures forall i :: |r| <= i < |s| ==> IsSpace(k, s[i])
  {
    if s != [] && IsSpace(k, s[|s| - 1]) then
      var r := TrimRight(k, s[..|s| - 1]);
      assert forall i :: |r| <= i < |s| - 1 ==> s[..|s| - 1][i] == s[i];
      r
    else s
  }

  /** `s.trim()` (JavaScript) or `s.strip()` (Python). */
  function Trim(k: SpaceKind, s: string): (r: string)
    ensures |r| <= |s|
    ensures r != [] ==> !IsSpace(k, r[0]) && !IsSpace(k, r[|r| - 1])
  {
    TrimRight(k, TrimLeft(k, s))
  }

  /** A text that does not start with whitespace has nothing to trim on the
      left. */
  lemma TrimLeftKeeps(k: SpaceKind, s: string)
    requires s != [] ==> !IsSpace(k, s[0])
    ensures TrimLeft(k, s) == s
  {
  }

  /** Trimming yields the empty string exactly when the input is all whitespace. */
  lemma TrimEmptyIffBlank(k: SpaceKind, s: string)
    ensures Trim(k, s) == [] <==> Blank(k, s)
  {
    var l := TrimLeft(k, s);
    var r := TrimRight(k, l);
    if r == [] {
      assert l == [];
    } else {
      var j := |s| - |l|;
      assert l[0] == r[0] && s[j] == l[0];
      assert !IsSpace(k, s[j]);
    }
  }

  /** Trimming is idempotent. */
  lemma TrimIdempotent(k: SpaceKind, s: string)
    ensures Trim(k, Trim(k, s)) == Trim(k, s)
  {
    var t := Trim(k, s);
    if t != [] {
      assert TrimLeft(k, t) == t;
      assert TrimRight(k, t) == t;
    }
  }

  // ---------------------------------------------------------------------------
  // ASCII case mapping

  function LowerChar(c: char): char {
    if 'A' <= c <= 'Z' then (c as int + 32) as char else c
  }

  function UpperChar(c: char): char {
    if 'a' <= c <= 'z' then (c as int - 32) as char else c
  }

  /** `toLowerCase()` / `lower()` restricted to the ASCII letters. */
  function Lower(s: string): (r: string)
    ensures |r| == |s| && forall i :: 0 <= i < |s| ==> r[i] == LowerChar(s[i])
  {
    seq(|s|, i requires 0 <= i < |s| => LowerChar(s[i]))
  }

  /** `toUpperCase()` / `upper()` restricted to the ASCII letters. */
  function Upper(s: string): (r: string)
    ensures |r| == |s| && forall i :: 0 <= i < |s| ==> r[i] == UpperChar(s[i])
  {
    seq(|s|, i requires 0 <= i < |s| => UpperChar(s[i]))
  }

  /** Lower-casing twice is lower-casing once. */
  lemma LowerIdempotent(s: string)
    ensures Lower(Lower(s)) == Lower(s)
  {
  }

  // ---------------------------------------------------------------------------
  // Prefixes, substrings, slices

  predicate StartsWith(s: string, p: string) {
    |p| <= |s| && s[..|p|] == p
  }

  /** Substring test: Python `sub in s`, JavaScript `s.includes(sub)`. */
  predicate Contains(s: string, sub: string)
    decreases |s|
  {
    StartsWith(s, sub) || (s != [] && Contains(s[1..], sub))
  }

  lemma ContainsAt(s: string, sub: string, i: nat)
    requires i + |sub| <= |s| && s[i..i + |sub|] == sub
    ensures Contains(s, sub)
    decreases i
  {
    if i > 0 {
      assert s[1..][i - 1..i - 1 + |sub|] == sub;
      ContainsAt(s[1..], sub, i - 1);
    }
  }

  /** Python `s[:n]` (and JavaScript `slice(0, n)`) for a non-negative `n`. */
  function Take<T>(s: seq<T>, n: nat): (r: seq<T>)
    ensures |r| == if n < |s| then n else |s|
    ensures r == s[..|r|]
  {
    if n < |s| then s[..n] else s
  }

  // ---------------------------------------------------------------------------
  // Splitting on one character and joining

  function IndexOf(s: string, c: char): (r: Option<nat>)
    ensures r.None? ==> c !in s
    ensures r.Some? ==> r.value < |s| && s[r.value] == c && c !in s[..r.value]
  {
    if s == [] then None
    else if s[0] == c then Some(0)
    else match IndexOf(s[1..], c)
      case None => None
      case Some(i) => assert s[..i + 1] == [s[0]] + s[1..][..i]; Some(i + 1)
  }

  /** `s.split(c)` in JavaScript and in Python (`sep` given), for one character. */
  function Split(s: string, c: char): (parts: seq<string>)
    ensures |parts| >= 1
    ensures forall p :: p in parts ==> c !in p
    decreases |s|
  {
    match IndexOf(s, c)
    case None => [s]
    case Some(i) => [s[..i]] + Split(s[i + 1..], c)
  }

  function Join(parts: seq<string>, sep: string): string {
    if parts == [] then ""
    else if |parts| == 1 then parts[0]
    else parts[0] + sep + Join(parts[1..], sep)
  }

  /** Splitting on a character and joining with it gives back the input. */
  lemma {:induction false} JoinSplit(s: string, c: char)
    ensures Join(Split(s, c), [c]) == s
    decreases |s|
  {
    match IndexOf(s, c)
    case None =>
    case Some(i) =>
      var rest := s[i + 1..];
      var parts := Split(rest, c);
      JoinSplit(rest, c);
      var all := [s[..i]] + parts;
      assert Split(s, c) == all;
      assert |all| > 1 && all[0] == s[..i] && all[1..] == parts;
      assert Join(all, [c]) == s[..i] + [c] + Join(parts, [c]);
      assert s == s[..i] + [c] + rest;
  }

  /** `''.join(parts)` / `parts.join('')`. */
  function Concat(parts: seq<string>): string
    decreases |parts|
  {
    if parts == [] then "" else parts[0] + Concat(parts[1..])
  }

  lemma {:induction false} ConcatAppend(a: seq<string>, b: seq<string>)
    ensures Concat(a + b) == Concat(a) + Concat(b)
    decreases |a|
  {
    if a != [] {
      assert (a + b)[0] == a[0];
      assert (a + b)[1..] == a[1..] + b;
      ConcatAppend(a[1..], b);
    } else {
      assert a + b == b;
    }
  }

  lemma ConcatPair(x: string, y: string, rest: seq<string>)
    ensures Concat([x, y] + rest) == x + y + Concat(rest)
  {
    ConcatAppend([x, y], rest);
    assert [x, y][1..] == [y];
    assert Concat([y]) == y + Concat([]);
  }

  /** Joining two non-empty lists is joining each and putting the separator
      between. */
  lemma {:induction false} JoinAppend(a: seq<string>, b: seq<string>, sep: string)
    requires a != [] && b != []
    ensures Join(a + b, sep) == Join(a, sep) + sep + Join(b, sep)
    decreases |a|
  {
    assert (a + b)[0] == a[0];
    if |a| == 1 {
      assert (a + b)[1..] == b;
    } else {
      assert (a + b)[1..] == a[1..] + b;
      JoinAppend(a[1..], b, sep);
    }
  }

  /** The piece after the last occurrence of `c` (the whole string when `c`
      does not occur): `s.split(c)[-1]`, `s.split(c).pop()`. */
  function LastSegment(s: string, c: char): (r: string)
    ensures c !in r
  {
    var parts := Split(s, c);
    parts[|parts| - 1]
  }

  lemma {:induction false} LastSegmentIsSuffix(s: string, c: char)
    ensures |LastSegment(s, c)| <= |s|
    ensures s[|s| - |LastSegment(s, c)|..] == LastSegment(s, c)
    ensures c !in s ==> LastSegment(s, c) == s
    ensures c in s ==> |LastSegment(s, c)| < |s| && s[|s| - |LastSegment(s, c)| - 1] == c
    decreases |s|
  {
    match IndexOf(s, c)
    case None =>
    case Some(i) =>
      var rest := s[i + 1..];
      LastSegmentIsSuffix(rest, c);
      assert Split(s, c) == [s[..i]] + Split(rest, c);
      assert LastSegment(s, c) == LastSegment(rest, c);
      assert s[|s| - |LastSegment(s, c)|..] == rest[|rest| - |LastSegment(rest, c)|..];
      if c in rest {
        assert s[|s| - |LastSegment(s, c)| - 1] == rest[|rest| - |LastSegment(rest, c)| - 1];
      }
  }

  // ---------------------------------------------------------------------------
  // Decimal rendering

  function DigitChar(d: nat): char
    requires d < 10
  {
    "0123456789"[d]
  }

  function NatToString(n: nat): (r: string)
    ensures |r| >= 1
    ensures forall i :: 0 <= i < |r| ==> '0' <= r[i] <= '9'
  {
    if n < 10 then [DigitChar(n)] else NatToString(n / 10) + [DigitChar(n % 10)]
  }

  /** `str(n)` in Python, `${n}` in JavaScript, for an integer. */
  function IntToString(n: int): (r: string)
    ensures r != []
  {
    if n < 0 then "-" + NatToString(-n) else NatToString(n)
  }

  // ---------------------------------------------------------------------------
  // Code-point order on strings (Python's `<` on str)

  predicate StrLe(a: string, b: string)
    decreases |a|
  {
    a == [] || (b != [] && (a[0] < b[0] || (a[0] == b[0] && StrLe(a[1..], b[1..]))))
  }

  lemma {:induction false} StrLeTotal(a: string, b: string)
    ensures StrLe(a, b) || StrLe(b, a)
    decreases |a|
  {
    if a != [] && b != [] && a[0] == b[0] { StrLeTotal(a[1..], b[1..]); }
  }

  lemma {:induction false} StrLeTrans(a: string, b: string, c: string)
    requires StrLe(a, b) && StrLe(b, c)
    ensures StrLe(a, c)
    decreases |a|
  {
    if a != [] && b != [] && c != [] && a[0] == b[0] && b[0] == c[0] {
      StrLeTrans(a[1..], b[1..], c[1..]);
    }
  }

  // ---------------------------------------------------------------------------
  // UTF-16 length

  /** JavaScript `s.length`: characters outside the Basic Multilingual Plane
      count twice (a surrogate pair). */
  function Utf16Length(s: string): (n: nat)
    ensures |s| <= n <= 2 * |s|
  {
    if s == [] then 0 else (if s[0] as int >= 0x10000 then 2 else 1) + Utf16Length(s[1..])
  }

  // ---------------------------------------------------------------------------
  // Filtering

  /** JavaScript `s.filter(p)` / a Python list comprehension with a test:
      the elements that pass, in their order. */
  function Filter<T(!new)>(s: seq<T>, p: T -> bool): (r: seq<T>)
    ensures |r| <= |s|
    ensures forall x :: x in r <==> x in s && p(x)
    decreases |s|
  {
    if s == [] then [] else (if p(s[0]) then [s[0]] else []) + Filter(s[1..], p)
  }

  /** When every element passes, the filter keeps the whole list. */
  lemma {:induction false} FilterAll<T(!new)>(s: seq<T>, p: T -> bool)
    requires forall x :: x in s ==> p(x)
    ensures Filter(s, p) == s
    decreases |s|
  {
    if s != [] {
      assert s[0] in s;
      FilterAll(s[1..], p);
    }
  }

  /** Filtering keeps order: the kept elements are a subsequence, so
      filtering a concatenation filters each part. */
  lemma {:induction false} FilterAppend<T(!new)>(a: seq<T>, b: seq<T>, p: T -> bool)
    ensures Filter(a + b, p) == Filter(a, p) + Filter(b, p)
    decreases |a|
  {
    if a == [] {
      assert a + b == b;
    } else {
      assert (a + b)[0] == a[0] && (a + b)[1..] == a[1..] + b;
      FilterAppend(a[1..], b, p);
    }
  }
}
