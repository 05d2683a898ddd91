/**
 * The JavaScript string and number built-ins that the action's core relies on:
 * `String.prototype.trim`, `split`, `join`, `indexOf`, `lastIndexOf`, `slice`,
 * the global `parseInt` and the decimal rendering of a non-negative integer.
 * Strings are sequences of Unicode scalar values.
 */
module JsString {
  import opened Wrappers

  /** White space and line terminators, as `trim` and `parseInt` skip them */
  predicate IsWhitespace(c: char) {
    || c == '\t' || c == '\n' || c == '\U{000B}' || c == '\U{000C}' || c == '\r'
    || c == ' ' || c == '\U{00A0}' || c == '\U{1680}'
    || ('\U{2000}' <= c <= '\U{200A}')
    || c == '\U{2028}' || c == '\U{2029}' || c == '\U{202F}' || c == '\U{205F}'
    || c == '\U{3000}' || c == '\U{FEFF}'
  }

  /** The characters a regular expression `.` does not match */
  predicate IsLineTerminator(c: char) {
    c == '\n' || c == '\r' || c == '\U{2028}' || c == '\U{2029}'
  }

  // ---------------------------------------------------------------- trim

  /** Drops leading white space: the result is a suffix of `s` that starts with no white space */
  function TrimStart(s: string): (r: string)
    ensures |r| <= |s| && r == s[|s| - |r|..]
    ensures r != [] ==> !IsWhitespace(r[0])
    ensures forall k :: 0 <= k < |s| - |r| ==> IsWhitespace(s[k])
  {
    if s != [] && IsWhitespace(s[0]) then TrimStart(s[1..]) else s
  }

  /** Drops trailing white space: the result is a prefix of `s` that ends with no white space */
  function TrimEnd(s: string): (r: string)
    ensures |r| <= |s| && r == s[..|r|]
    ensures r != [] ==> !IsWhitespace(r[|r| - 1])
    ensures forall k :: |r| <= k < |s| ==> IsWhitespace(s[k])
  {
    if s != [] && IsWhitespace(s[|s| - 1]) then TrimEnd(s[..|s| - 1]) else s
  }

  /** `s.trim()` */
  function Trim(s: string): (r: string)
    ensures r != [] ==> !IsWhitespace(r[0]) && !IsWhitespace(r[|r| - 1])
    ensures (s == [] || (!IsWhitespace(s[0]) && !IsWhitespace(s[|s| - 1]))) ==> r == s
  {
    TrimEnd(TrimStart(s))
  }

  /** Trimming only removes characters: what `s` lacks, `Trim(s)` lacks */
  lemma TrimKeepsAbsent(s: string, c: char)
    requires c !in s
    ensures c !in Trim(s)
  {
    var t := TrimStart(s);
    AbsentFromSlice(s, c, |s| - |t|, |s|);
    AbsentFromSlice(t, c, 0, |TrimEnd(t)|);
  }

  /** A character absent from a string is absent from each of its slices */
  lemma AbsentFromSlice(s: string, c: char, from: nat, to: nat)
    requires from <= to <= |s| && c !in s
    ensures c !in s[from..to]
  {
    assert forall k :: 0 <= k < to - from ==> s[from..to][k] == s[from + k];
  }

  lemma TrimIdempotent(s: string)
    ensures Trim(Trim(s)) == Trim(s)
  {
  }

  // ---------------------------------------------------------------- search

  /** `s.indexOf(c)`: the first position of `c`, or -1 */
  function IndexOf(s: string, c: char): (r: int)
    ensures -1 <= r < |s|
    ensures r == -1 ==> forall k :: 0 <= k < |s| ==> s[k] != c
    ensures r >= 0 ==> s[r] == c && forall k :: 0 <= k < r ==> s[k] != c
  {
    if s == [] then -1
    else if s[0] == c then 0
    else
      var i := IndexOf(s[1..], c);
      if i < 0 then -1 else i + 1
  }

  /** `s.lastIndexOf(c)`: the last position of `c`, or -1 */
  function LastIndexOf(s: string, c: char): (r: int)
    ensures -1 <= r < |s|
    ensures r == -1 ==> forall k :: 0 <= k < |s| ==> s[k] != c
    ensures r >= 0 ==> s[r] == c && forall k :: r < k < |s| ==> s[k] != c
  {
    if s == [] then -1
    else if s[|s| - 1] == c then |s| - 1
    else LastIndexOf(s[..|s| - 1], c)
  }

  // ---------------------------------------------------------------- slice

  /** How `slice` turns a possibly negative argument into a position in a string of length `len` */
  function RelativeIndex(i: int, len: nat): (r: nat)
    ensures r <= len
    ensures 0 <= i <= len ==> r == i
    ensures i < 0 && 0 <= len + i ==> r == len + i
    ensures i < 0 && len + i < 0 ==> r == 0
    ensures i > len ==> r == len
  {
    if i < 0 then (if len + i < 0 then 0 else len + i)
    else if i > len then len
    else i
  }

  /** `s.slice(start, end)`; `s.slice(start)` is `Slice(s, start, |s|)` */
  function Slice(s: string, start: int, end: int): (r: string)
    ensures 0 <= start <= end <= |s| ==> r == s[start..end]
    ensures end < 0 && 0 <= start <= |s| + end ==> r == s[start..|s| + end]
    ensures RelativeIndex(start, |s|) >= RelativeIndex(end, |s|) ==> r == ""
  {
    var from, to := RelativeIndex(start, |s|), RelativeIndex(end, |s|);
    if from < to then s[from..to] else ""
  }

  // ---------------------------------------------------------------- join and split

  /** `parts.join(sep)` */
  function Join(parts: seq<string>, sep: string): string {
    if |parts| == 0 then ""
    else if |parts| == 1 then parts[0]
    else parts[0] + sep + Join(parts[1..], sep)
  }

  /** Joining two non-empty lists puts one separator between their joins */
  lemma {:induction false} JoinAppend(a: seq<string>, b: seq<string>, sep: string)
    requires a != [] && b != []
    ensures Join(a + b, sep) == Join(a, sep) + sep + Join(b, sep)
  {
    if |a| == 1 {
      assert (a + b)[1..] == b;
    } else {
      assert (a + b)[1..] == a[1..] + b;
      JoinAppend(a[1..], b, sep);
    }
  }

  /** `s.split(c)` for a one-character separator: every piece, in order */
  function Split(s: string, c: char): (r: seq<string>)
    ensures |r| >= 1
    ensures r == [s] <==> c !in s
    ensures forall i :: 0 <= i < |r| ==> c !in r[i]
    ensures Join(r, [c]) == s
    decreases |s|
  {
    var i := IndexOf(s, c);
    if i < 0 then [s]
    else
      var rest := Split(s[i + 1..], c);
      var r := [s[..i]] + rest;
      assert r[1..] == rest;
      assert s == s[..i] + [c] + s[i + 1..];
      r
  }

  /** The first piece of a split is everything before the first separator */
  lemma SplitFirstPiece(s: string, c: char)
    ensures Split(s, c)[0] == if IndexOf(s, c) < 0 then s else s[..IndexOf(s, c)]
  {
  }

  /** Splitting a join of pieces that do not hold the separator gives the pieces back */
  lemma {:induction false} SplitJoin(parts: seq<string>, c: char)
    requires parts != []
    requires forall i :: 0 <= i < |parts| ==> c !in parts[i]
    ensures Split(Join(parts, [c]), c) == parts
  {
    if |parts| > 1 {
      var s := Join(parts, [c]);
      assert s == parts[0] + [c] + Join(parts[1..], [c]);
      assert s[|parts[0]|] == c;
      assert s[..|parts[0]|] == parts[0];
      assert IndexOf(s, c) == |parts[0]|;
      assert s[|parts[0]| + 1..] == Join(parts[1..], [c]);
      SplitJoin(parts[1..], c);
    }
  }

  /** Joining with a one-character separator is injective on lists of pieces without it */
  lemma JoinInjective(a: seq<string>, b: seq<string>, c: char)
    requires a != [] && b != []
    requires forall i :: 0 <= i < |a| ==> c !in a[i]
    requires forall i :: 0 <= i < |b| ==> c !in b[i]
    requires Join(a, [c]) == Join(b, [c])
    ensures a == b
  {
    SplitJoin(a, c);
    SplitJoin(b, c);
  }

  // ---------------------------------------------------------------- numbers

  /** The value of an ASCII letter or digit as a digit of radix up to 36, or -1 */
  function DigitValue(c: char): (v: int)
    ensures -1 <= v < 36
    ensures '0' <= c <= '9' ==> v == c as int - '0' as int
  {
    if '0' <= c <= '9' then c as int - '0' as int
    else if 'a' <= c <= 'z' then c as int - 'a' as int + 10
    else if 'A' <= c <= 'Z' then c as int - 'A' as int + 10
    else -1
  }

  predicate IsDigitIn(c: char, radix: int) {
    0 <= DigitValue(c) < radix
  }

  predicate IsDecimal(s: string) {
    forall i :: 0 <= i < |s| ==> '0' <= s[i] <= '9'
  }

  /** The length of the longest prefix of `s` made of radix digits */
  function DigitRun(s: string, radix: int): (n: nat)
    ensures n <= |s|
    ensures forall i :: 0 <= i < n ==> IsDigitIn(s[i], radix)
    ensures n < |s| ==> !IsDigitIn(s[n], radix)
  {
    if s != [] && IsDigitIn(s[0], radix) then 1 + DigitRun(s[1..], radix) else 0
  }

  /** The value of a string of digits, most significant first */
  function DigitsValue(s: string, radix: int): int {
    if s == [] then 0 else DigitsValue(s[..|s| - 1], radix) * radix + DigitValue(s[|s| - 1])
  }

  /**
   * The global `parseInt(str, radix)`, with NaN as None: skip leading white space,
   * take a sign, refuse a radix outside 2..36 (0 meaning "not given"), then read the
   * digits of the rest; no digit at all is NaN.
   */
  function ParseInt(str: string, radix: int): Option<int> {
    var s := TrimStart(str);
    var negative := s != [] && s[0] == '-';
    var unsigned := if s != [] && (s[0] == '-' || s[0] == '+') then s[1..] else s;
    if radix != 0 && (radix < 2 || 36 < radix) then None
    else
      match ParseUnsigned(unsigned, radix)
      case None => None
      case Some(v) => Some(if negative then -v else v)
  }

  /**
   * The unsigned part of `parseInt`: radix 16 after a `0x` or `0X` prefix when the radix
   * is 0 or 16, else the radix given or 10; the value of the longest run of digits.
   */
  function ParseUnsigned(unsigned: string, radix: int): Option<int> {
    var hex := (radix == 0 || radix == 16) && |unsigned| >= 2 && unsigned[0] == '0'
               && (unsigned[1] == 'x' || unsigned[1] == 'X');
    var r := if hex then 16 else if radix == 0 then 10 else radix;
    var body := if hex then unsigned[2..] else unsigned;
    var digits := body[..DigitRun(body, r)];
    if digits == [] then None else Some(DigitsValue(digits, r))
  }

  /** A run of decimal digits followed by something that is not a digit nor an `x` parses to its value */
  lemma ParseDecimalPrefix(d: string, t: string, radix: int)
    requires radix == 0 || radix == 10
    requires d != [] && IsDecimal(d)
    requires t == [] || (!IsDigitIn(t[0], 10) && t[0] != 'x' && t[0] != 'X')
    ensures ParseInt(d + t, radix) == Some(DigitsValue(d, 10))
  {
    assert (d + t)[0] == d[0];
    ParseIntOfUnsigned(d + t, radix);
    ParseUnsignedDecimal(d, t, radix);
  }

  /** A string that starts with a decimal digit has no white space nor sign to skip */
  lemma ParseIntOfUnsigned(s: string, radix: int)
    requires radix == 0 || 2 <= radix <= 36
    requires s != [] && '0' <= s[0] <= '9'
    ensures ParseInt(s, radix) == ParseUnsigned(s, radix)
  {
    assert TrimStart(s) == s;
  }

  /** The unsigned part of the same */
  lemma ParseUnsignedDecimal(d: string, t: string, radix: int)
    requires radix == 0 || radix == 10
    requires d != [] && IsDecimal(d)
    requires t == [] || (!IsDigitIn(t[0], 10) && t[0] != 'x' && t[0] != 'X')
    ensures ParseUnsigned(d + t, radix) == Some(DigitsValue(d, 10))
  {
    var s := d + t;
    assert |s| >= 2 ==> s[1] == (if |d| >= 2 then d[1] else t[0]);
    assert !(|s| >= 2 && s[0] == '0' && (s[1] == 'x' || s[1] == 'X'));
    DigitRunOfDecimal(d, t);
    assert s[..|d|] == d;
  }

  /** The digit run of decimal digits followed by a non-digit is exactly those digits */
  lemma DigitRunOfDecimal(d: string, t: string)
    requires IsDecimal(d)
    requires t == [] || !IsDigitIn(t[0], 10)
    ensures DigitRun(d + t, 10) == |d|
  {
    var s := d + t;
    assert forall i :: 0 <= i < |d| ==> s[i] == d[i];
    assert |s| > |d| ==> s[|d|] == t[0];
  }

  function DigitChar(d: nat): (c: char)
    requires d < 10
    ensures '0' <= c <= '9' && DigitValue(c) == d
  {
    (48 + d) as char
  }

  /** The decimal rendering of a non-negative integer, as a template literal produces it */
  function NatToString(n: nat): (r: string)
    ensures r != [] && IsDecimal(r)
  {
    if n < 10 then [DigitChar(n)] else NatToString(n / 10) + [DigitChar(n % 10)]
  }

  lemma {:induction false} NatToStringValue(n: nat)
    ensures DigitsValue(NatToString(n), 10) == n
  {
    if n >= 10 {
      var s := NatToString(n);
      assert s[..|s| - 1] == NatToString(n / 10);
      NatToStringValue(n / 10);
    }
  }

  /** Reading back the decimal rendering of `n` gives `n` */
  lemma ParseNatToString(n: nat)
    ensures ParseInt(NatToString(n), 10) == Some(n)
  {
    assert NatToString(n) + [] == NatToString(n);
    ParseDecimalPrefix(NatToString(n), [], 10);
    NatToStringValue(n);
  }
}
