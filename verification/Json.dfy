/** Python's json.dumps of a string (ASCII-only, section 7 of RFC 8259) and decimal integers, each with a
    reader that stops where the value ends. */
module Json {
  import opened Wrappers

  // A Python string: code points, lone surrogates included.
  type CodePoint = c: int | 0 <= c < 0x110000
  type PyString = seq<CodePoint>

  // UTF-16 code units.
  type Unit = u: int | 0 <= u < 0x10000

  predicate IsSurrogate(c: int) {
    0xD800 <= c < 0xE000
  }

  // Valid Unicode: no surrogate code points.
  predicate ValidUnicode(s: PyString) {
    forall i :: 0 <= i < |s| ==> !IsSurrogate(s[i])
  }

  function High(c: CodePoint): Unit
    requires c >= 0x10000
  {
    0xD800 + (c - 0x10000) / 0x400
  }

  function Low(c: CodePoint): Unit
    requires c >= 0x10000
  {
    0xDC00 + (c - 0x10000) % 0x400
  }

  function Units(c: CodePoint): seq<Unit> {
    if c < 0x10000 then [c] else [High(c), Low(c)]
  }

  function ToUtf16(s: PyString): seq<Unit> {
    if s == [] then [] else Units(s[0]) + ToUtf16(s[1..])
  }

  function FromUtf16(u: seq<Unit>): PyString {
    if u == [] then []
    else if |u| >= 2 && 0xD800 <= u[0] < 0xDC00 && 0xDC00 <= u[1] < 0xE000 then
      [0x10000 + (u[0] - 0xD800) * 0x400 + (u[1] - 0xDC00)] + FromUtf16(u[2..])
    else [u[0]] + FromUtf16(u[1..])
  }

  lemma {:induction false} Utf16RoundTrip(s: PyString)
    requires ValidUnicode(s)
    ensures FromUtf16(ToUtf16(s)) == s
  {
    if s != [] {
      Utf16RoundTrip(s[1..]);
      var u := ToUtf16(s);
      if s[0] < 0x10000 {
        assert u[1..] == ToUtf16(s[1..]);
      } else {
        assert u[2..] == ToUtf16(s[1..]);
      }
    }
  }

  function HexDigit(d: int): char
    requires 0 <= d < 16
  {
    if d < 10 then ('0' as int + d) as char else ('a' as int + d - 10) as char
  }

  function HexValue(c: char): Option<int> {
    if '0' <= c <= '9' then Some(c as int - '0' as int)
    else if 'a' <= c <= 'f' then Some(c as int - 'a' as int + 10)
    else None
  }

  function Hex4(u: Unit): string {
    [HexDigit(u / 0x1000), HexDigit(u / 0x100 % 16), HexDigit(u / 0x10 % 16), HexDigit(u % 16)]
  }

  function ParseHex4(t: string): Option<Unit>
    requires |t| >= 4
  {
    var a :- HexValue(t[0]);
    var b :- HexValue(t[1]);
    var c :- HexValue(t[2]);
    var d :- HexValue(t[3]);
    if 0 <= a < 16 && 0 <= b < 16 && 0 <= c < 16 && 0 <= d < 16
    then Some(a * 0x1000 + b * 0x100 + c * 0x10 + d) else None
  }

  // The two-character escapes: what follows the backslash, and what it stands for.
  function ShortEscape(u: Unit): Option<char> {
    if u == '"' as int then Some('"')
    else if u == '\\' as int then Some('\\')
    else if u == 8 then Some('b')
    else if u == 12 then Some('f')
    else if u == 10 then Some('n')
    else if u == 13 then Some('r')
    else if u == 9 then Some('t')
    else None
  }

  function ShortUnescape(c: char): Option<Unit> {
    match c
    case '"' => Some('"' as int)
    case '\\' => Some('\\' as int)
    case 'b' => Some(8)
    case 'f' => Some(12)
    case 'n' => Some(10)
    case 'r' => Some(13)
    case 't' => Some(9)
    case _ => None
  }

  predicate IsPrintable(u: int) {
    0x20 <= u <= 0x7E
  }

  function EscapeUnit(u: Unit): string {
    if ShortEscape(u).Some? then ['\\', ShortEscape(u).value]
    else if IsPrintable(u) then [u as char]
    else ['\\', 'u'] + Hex4(u)
  }

  // One character of json.dumps: a supplementary code point becomes a surrogate pair.
  function Escape(c: CodePoint): string {
    if c < 0x10000 then EscapeUnit(c)
    else ['\\', 'u'] + Hex4(High(c)) + ['\\', 'u'] + Hex4(Low(c))
  }

  /** Which of the three forms a code unit takes: itself exactly for printable ASCII but the quote and the
      backslash, a two-character escape exactly for those two and the five controls that have one, and four
      hexadecimal digits for everything else. */
  lemma EscapeForm(u: Unit)
    ensures |EscapeUnit(u)| == 1 <==> 0x20 <= u <= 0x7E && u != 0x22 && u != 0x5C
    ensures |EscapeUnit(u)| == 2 <==> u in [0x08, 0x09, 0x0A, 0x0C, 0x0D, 0x22, 0x5C]
    ensures |EscapeUnit(u)| == 1 || |EscapeUnit(u)| == 2 || |EscapeUnit(u)| == 6
  {
  }

  function EscapeAll(s: PyString): string {
    if s == [] then "" else Escape(s[0]) + EscapeAll(s[1..])
  }

  function Dumps(s: PyString): string {
    "\"" + EscapeAll(s) + "\""
  }

  function EscapeUnits(u: seq<Unit>): string {
    if u == [] then "" else EscapeUnit(u[0]) + EscapeUnits(u[1..])
  }

  lemma EscapeIsByUnits(c: CodePoint)
    ensures Escape(c) == EscapeUnits(Units(c))
  {
    if c < 0x10000 {
      assert EscapeUnits([c]) == EscapeUnit(c) + EscapeUnits([]);
    } else {
      assert [High(c), Low(c)][1..] == [Low(c)];
      assert EscapeUnits([Low(c)]) == EscapeUnit(Low(c)) + EscapeUnits([]);
    }
  }

  lemma {:induction false} EscapeConcat(a: seq<Unit>, b: seq<Unit>)
    ensures EscapeUnits(a + b) == EscapeUnits(a) + EscapeUnits(b)
  {
    if a == [] {
      assert a + b == b;
    } else {
      assert (a + b)[1..] == a[1..] + b;
      EscapeConcat(a[1..], b);
    }
  }

  // Escaping a string is escaping its UTF-16 code units.
  lemma {:induction false} EscapeByUnits(s: PyString)
    ensures EscapeAll(s) == EscapeUnits(ToUtf16(s))
  {
    if s != [] {
      EscapeByUnits(s[1..]);
      EscapeIsByUnits(s[0]);
      EscapeConcat(Units(s[0]), ToUtf16(s[1..]));
    }
  }

  // Reads code units up to the closing quote; gives them and what follows the quote.
  function ParseUnits(t: string): Option<(seq<Unit>, string)> {
    if t == "" then None
    else if t[0] == '"' then Some(([], t[1..]))
    else if t[0] != '\\' then
      if !IsPrintable(t[0] as int) then None
      else var r :- ParseUnits(t[1..]); Some(([t[0] as int] + r.0, r.1))
    else if |t| >= 2 && t[1] != 'u' then
      var u :- ShortUnescape(t[1]);
      var r :- ParseUnits(t[2..]);
      Some(([u] + r.0, r.1))
    else if |t| >= 6 then
      var u :- ParseHex4(t[2..6]);
      var r :- ParseUnits(t[6..]);
      Some(([u] + r.0, r.1))
    else None
  }

  lemma Nibbles(u: Unit)
    ensures u == u / 0x1000 * 0x1000 + u / 0x100 % 16 * 0x100 + u / 0x10 % 16 * 0x10 + u % 16
    ensures 0 <= u / 0x1000 < 16
  {
    var b, c := u / 0x100, u / 0x10;
    assert c == b * 16 + c % 16 && b == u / 0x1000 * 16 + b % 16;
  }

  lemma HexRoundTrip(u: Unit)
    ensures ParseHex4(Hex4(u)) == Some(u)
  {
    Nibbles(u);
  }

  // The reader takes one escaped unit off the front.
  lemma ParseOneUnit(u: Unit, t: string)
    requires ParseUnits(t).Some?
    ensures ParseUnits(EscapeUnit(u) + t) == Some(([u] + ParseUnits(t).value.0, ParseUnits(t).value.1))
  {
    var all := EscapeUnit(u) + t;
    if ShortEscape(u).Some? {
      assert all[2..] == t;
    } else if IsPrintable(u) {
      assert all[1..] == t;
    } else {
      HexRoundTrip(u);
      assert all[2..6] == Hex4(u) && all[6..] == t;
    }
  }

  /** The reader undoes json.dumps and stops right behind the closing quote, whatever follows. */
  lemma {:induction false} UnitsRoundTrip(u: seq<Unit>, rest: string)
    ensures ParseUnits(EscapeUnits(u) + "\"" + rest) == Some((u, rest))
  {
    if u == [] {
      assert "" + "\"" + rest == "\"" + rest;
    } else {
      UnitsRoundTrip(u[1..], rest);
      var t := EscapeUnits(u[1..]) + "\"" + rest;
      ParseOneUnit(u[0], t);
      assert EscapeUnits(u) + "\"" + rest == EscapeUnit(u[0]) + t;
      assert [u[0]] + u[1..] == u;
    }
  }

  // Decimal integers.

  function Digit(d: int): char
    requires 0 <= d < 10
  {
    ('0' as int + d) as char
  }

  function NatText(n: nat): string {
    if n < 10 then [Digit(n)] else NatText(n / 10) + [Digit(n % 10)]
  }

  function IntText(n: int): string {
    if n < 0 then "-" + NatText(-n) else NatText(n)
  }

  predicate IsDigit(c: char) {
    '0' <= c <= '9'
  }

  // The digits at the front of t, read on from n.
  function ReadDigits(n: nat, t: string): (nat, string)
    decreases |t|
  {
    if t == "" || !IsDigit(t[0]) then (n, t)
    else ReadDigits(n * 10 + (t[0] as int - '0' as int), t[1..])
  }

  function ParseInt(t: string): Option<(int, string)> {
    var negative := t != "" && t[0] == '-';
    var digits := if negative then t[1..] else t;
    if digits == "" || !IsDigit(digits[0]) then None
    else
      var r := ReadDigits(0, digits);
      var n: int := r.0;
      Some((if negative then -n else n, r.1))
  }

  // The number whose digits are those of m followed by those of n.
  function Append(m: nat, n: nat): nat {
    if n < 10 then m * 10 + n else Append(m, n / 10) * 10 + n % 10
  }

  lemma {:induction false} AppendToZero(n: nat)
    ensures Append(0, n) == n
  {
    if n >= 10 {
      AppendToZero(n / 10);
    }
  }

  // Reading the digits of n takes the reader from m to m followed by n, whatever comes next.
  lemma {:induction false} ReadNat(m: nat, n: nat, rest: string)
    ensures IsDigit(NatText(n)[0])
    ensures ReadDigits(m, NatText(n) + rest) == ReadDigits(Append(m, n), rest)
    decreases n
  {
    var last := [Digit(n % 10)] + rest;
    assert last[1..] == rest;
    if n >= 10 {
      ReadNat(m, n / 10, last);
      assert NatText(n) + rest == NatText(n / 10) + last;
    }
  }

  /** Decimal text reads back, up to the first character that is no digit. */
  lemma IntRoundTrip(n: int, rest: string)
    requires rest == "" || !IsDigit(rest[0])
    ensures ParseInt(IntText(n) + rest) == Some((n, rest))
  {
    var a := if n < 0 then -n else n;
    ReadNat(0, a, rest);
    AppendToZero(a);
    if n < 0 {
      assert (IntText(n) + rest)[1..] == NatText(a) + rest;
    }
  }
}
