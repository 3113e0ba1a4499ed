/**
 * String primitives shared by the backend (Python) and the frontend (TypeScript) models:
 * whitespace trimming in both languages, `split`/`join` on one separator character,
 * decimal rendering of integers, code-point lexicographic order, and the UTF-16 length
 * that JavaScript's `.length` reports.
 */
module Strings {

  /** The two runtimes whose whitespace sets differ. */
  datatype Lang = Python | JavaScript

  /** Python's `str.isspace` (used by `str.strip()`). */
  predicate IsPySpace(c: char) {
    c == ' ' || ('\t' <= c <= '\r') || ('\U{1c}' <= c <= '\U{1f}') || c == '\U{85}' || c == '\U{a0}'
    || c == '\U{1680}' || ('\U{2000}' <= c <= '\U{200a}') || c == '\U{2028}' || c == '\U{2029}'
    || c == '\U{202f}' || c == '\U{205f}' || c == '\U{3000}'
  }

  /** ECMAScript WhiteSpace and LineTerminator (used by `String.prototype.trim`). */
  predicate IsJsSpace(c: char) {
    c == ' ' || ('\t' <= c <= '\r') || c == '\U{a0}' || c == '\U{feff}'
    || c == '\U{1680}' || ('\U{2000}' <= c <= '\U{200a}') || c == '\U{2028}' || c == '\U{2029}'
    || c == '\U{202f}' || c == '\U{205f}' || c == '\U{3000}'
  }

  predicate IsSpace(l: Lang, c: char) {
    match l
    case Python => IsPySpace(c)
    case JavaScript => IsJsSpace(c)
  }

  predicate AllSpace(l: Lang, s: string) {
    forall k :: 0 <= k < |s| ==> IsSpace(l, s[k])
  }

  /** Number of leading whitespace characters. */
  function Leading(l: Lang, s: string): (n: nat)
    ensures n <= |s|
    ensures AllSpace(l, s[..n])
    ensures n < |s| ==> !IsSpace(l, s[n])
  {
    if s == [] || !IsSpace(l, s[0]) then 0
    else
      var m := Leading(l, s[1..]);
      assert s[1..][..m] == s[1..1 + m];
      1 + m
  }

  /** Index where the trailing whitespace of `s` starts. */
  function TrailingFrom(l: Lang, s: string): (m: nat)
    ensures m <= |s|
    ensures AllSpace(l, s[m..])
    ensures m > 0 ==> !IsSpace(l, s[m - 1])
  {
    if s == [] || !IsSpace(l, s[|s| - 1]) then |s|
    else
      var m := TrailingFrom(l, s[..|s| - 1]);
      assert s[m..] == s[..|s| - 1][m..] + [s[|s| - 1]];
      m
  }

  /** `s.strip()` in Python, `s.trim()` in JavaScript. */
  function Trim(l: Lang, s: string): (r: string)
    ensures |r| <= |s|
    ensures r == [] <==> AllSpace(l, s)
  {
    var i := Leading(l, s);
    var j := TrailingFrom(l, s[i..]);
    assert AllSpace(l, s) ==> i == |s|;
    s[i..i + j]
  }

  /**
   * What trimming keeps: the run of `s` between its leading and its trailing whitespace,
   * which neither starts nor ends with whitespace.
   */
  lemma TrimRecorta(l: Lang, s: string)
    ensures Leading(l, s) + |Trim(l, s)| <= |s|
    ensures Trim(l, s) == s[Leading(l, s)..Leading(l, s) + |Trim(l, s)|]
    ensures AllSpace(l, s[..Leading(l, s)])
    ensures AllSpace(l, s[Leading(l, s) + |Trim(l, s)|..])
    ensures Trim(l, s) != [] ==> !IsSpace(l, Trim(l, s)[0]) && !IsSpace(l, Trim(l, s)[|Trim(l, s)| - 1])
  {
    TrimEsTramo(l, s);
    TrimBordes(l, s);
  }

  lemma TrimEsTramo(l: Lang, s: string)
    ensures Leading(l, s) + |Trim(l, s)| <= |s|
    ensures Trim(l, s) == s[Leading(l, s)..Leading(l, s) + |Trim(l, s)|]
  {
  }

  lemma TrimBordes(l: Lang, s: string)
    ensures AllSpace(l, s[Leading(l, s) + |Trim(l, s)|..])
    ensures Trim(l, s) != [] ==> !IsSpace(l, Trim(l, s)[0]) && !IsSpace(l, Trim(l, s)[|Trim(l, s)| - 1])
  {
    var i := Leading(l, s);
    var j := TrailingFrom(l, s[i..]);
    TrimTramo(l, s, i, j, Trim(l, s));
  }

  lemma TrimTramo(l: Lang, s: string, i: nat, j: nat, r: string)
    requires i <= |s| && (i < |s| ==> !IsSpace(l, s[i]))
    requires j <= |s| - i && AllSpace(l, s[i..][j..]) && (j > 0 ==> !IsSpace(l, s[i..][j - 1]))
    requires r == s[i..i + j]
    ensures AllSpace(l, s[i + j..])
    ensures r != [] ==> !IsSpace(l, r[0]) && !IsSpace(l, r[|r| - 1])
  {
    assert s[i..][j..] == s[i + j..];
    if j > 0 {
      assert r[0] == s[i] && r[|r| - 1] == s[i..][j - 1];
    }
  }

  /** Trimming twice is trimming once. */
  lemma TrimIdempotent(l: Lang, s: string)
    ensures Trim(l, Trim(l, s)) == Trim(l, s)
  {
    TrimRecorta(l, s);
    var r := Trim(l, s);
    if r != [] {
      assert Leading(l, r) == 0;
      assert TrailingFrom(l, r) == |r|;
    }
  }

  predicate StartsWith(s: string, p: string) {
    |p| <= |s| && s[..|p|] == p
  }

  /**
   * `s.split(sep)` with a one-character separator, in Python and in JavaScript alike:
   * the pieces between consecutive separators, so `""` splits into `[""]`.
   */
  function Split(s: string, sep: char): (r: seq<string>)
    ensures |r| >= 1
    ensures forall i :: 0 <= i < |r| ==> sep !in r[i]
  {
    if s == [] then [[]]
    else
      var rest := Split(s[1..], sep);
      if s[0] == sep then [[]] + rest
      else [[s[0]] + rest[0]] + rest[1..]
  }

  /** `sep.join(parts)` in Python, `parts.join(sep)` in JavaScript. */
  function Join(parts: seq<string>, sep: char): string {
    if parts == [] then []
    else if |parts| == 1 then parts[0]
    else parts[0] + [sep] + Join(parts[1..], sep)
  }

  /** Splitting and joining again gives the original string back. */
  lemma {:induction false} JoinSplit(s: string, sep: char)
    ensures Join(Split(s, sep), sep) == s
  {
    if s != [] {
      var rest := Split(s[1..], sep);
      JoinSplit(s[1..], sep);
      if s[0] != sep {
        if |rest| == 1 {
        } else {
          assert rest == [rest[0]] + rest[1..];
          assert Join(rest, sep) == rest[0] + [sep] + Join(rest[1..], sep);
        }
      }
    }
  }

  /** Joining pieces that contain no separator and splitting again gives the pieces back. */
  lemma {:induction false} SplitJoin(parts: seq<string>, sep: char)
    requires |parts| >= 1
    requires forall i :: 0 <= i < |parts| ==> sep !in parts[i]
    ensures Split(Join(parts, sep), sep) == parts
  {
    if |parts| == 1 {
      SplitNoSeparator(parts[0], sep);
    } else {
      SplitJoin(parts[1..], sep);
      SplitAfterPiece(parts[0], Join(parts[1..], sep), sep);
    }
  }

  lemma {:induction false} SplitNoSeparator(p: string, sep: char)
    requires sep !in p
    ensures Split(p, sep) == [p]
  {
    if p != [] {
      SplitNoSeparator(p[1..], sep);
      assert p[0] != sep;
      assert p == [p[0]] + p[1..];
    }
  }

  lemma {:induction false} SplitAfterPiece(p: string, t: string, sep: char)
    requires sep !in p
    ensures Split(p + [sep] + t, sep) == [p] + Split(t, sep)
  {
    if p == [] {
      assert (p + [sep] + t)[1..] == t;
    } else {
      assert (p + [sep] + t)[1..] == p[1..] + [sep] + t;
      SplitAfterPiece(p[1..], t, sep);
      assert p[0] != sep && (p + [sep] + t)[0] == p[0];
      assert p == [p[0]] + p[1..];
    }
  }

  // ---- Decimal rendering of integers (Python's `str(int)`, JavaScript's number-to-string) ----

  function DigitChar(d: nat): (c: char)
    requires d < 10
    ensures '0' <= c <= '9'
  {
    ['0', '1', '2', '3', '4', '5', '6', '7', '8', '9'][d]
  }

  function DigitValue(c: char): (d: nat)
    requires '0' <= c <= '9'
    ensures d < 10
  {
    (c as int - '0' as int) as nat
  }

  lemma DigitRoundTrip(d: nat)
    requires d < 10
    ensures DigitValue(DigitChar(d)) == d
  {
  }

  predicate IsDigits(s: string) {
    forall k :: 0 <= k < |s| ==> '0' <= s[k] <= '9'
  }

  /** The number a run of decimal digits denotes (0 for the empty run). */
  function DecimalValue(s: string): nat
    requires IsDigits(s)
  {
    if s == [] then 0 else DecimalValue(s[..|s| - 1]) * 10 + DigitValue(s[|s| - 1])
  }

  /** Canonical decimal rendering of a natural number: digits only, no leading zero, and it denotes `n`. */
  function NatToString(n: nat): (r: string)
    ensures |r| >= 1 && IsDigits(r)
    ensures r[0] == '0' ==> n == 0 && r == "0"
    ensures DecimalValue(r) == n
  {
    if n < 10 then
      DigitRoundTrip(n);
      [DigitChar(n)]
    else
      var front := NatToString(n / 10);
      var r := front + [DigitChar(n % 10)];
      assert r[..|r| - 1] == front;
      DigitRoundTrip(n % 10);
      r
  }

  /** Python's `str(i)` for a possibly negative integer. */
  function IntToString(i: int): (r: string)
    ensures i >= 0 ==> r == NatToString(i)
    ensures i < 0 ==> r == "-" + NatToString(-i)
  {
    if i < 0 then "-" + NatToString(-i) else NatToString(i)
  }

  // ---- Python's `<` on `str`: lexicographic on code points ----

  predicate LexLess(a: string, b: string) {
    if a == [] then b != []
    else b != [] && (a[0] < b[0] || (a[0] == b[0] && LexLess(a[1..], b[1..])))
  }

  lemma {:induction false} LexLessIrreflexive(a: string)
    ensures !LexLess(a, a)
  {
    if a != [] {
      LexLessIrreflexive(a[1..]);
    }
  }

  lemma {:induction false} LexLessTransitive(a: string, b: string, c: string)
    requires LexLess(a, b) && LexLess(b, c)
    ensures LexLess(a, c)
  {
    if a != [] && a[0] == b[0] && b[0] == c[0] {
      LexLessTransitive(a[1..], b[1..], c[1..]);
    }
  }

  lemma {:induction false} LexLessTotal(a: string, b: string)
    requires a != b
    ensures LexLess(a, b) || LexLess(b, a)
  {
    if a != [] && b != [] && a[0] == b[0] {
      assert a == [a[0]] + a[1..] && b == [b[0]] + b[1..];
      LexLessTotal(a[1..], b[1..]);
    }
  }

  // ---- JavaScript views of a string ----

  /** JavaScript's `.length`: UTF-16 code units, two for a character outside the Basic Multilingual Plane. */
  function Utf16Length(s: string): (n: nat)
    ensures |s| <= n <= 2 * |s|
  {
    if s == [] then 0 else Utf16Length(s[..|s| - 1]) + (if s[|s| - 1] as int > 0xFFFF then 2 else 1)
  }

  /** `toUpperCase` of one character, for the ASCII letters (all other characters are kept). */
  function AsciiUpper(c: char): (u: char)
    ensures 'a' <= c <= 'z' ==> u as int == c as int - 32
    ensures !('a' <= c <= 'z') ==> u == c
  {
    if 'a' <= c <= 'z' then (c as int - 32) as char else c
  }
}
